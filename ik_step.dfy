/** The control-step half of the inverse-kinematics controller of osim_model-ik.cpp: after the
    sample handling both OpenSim controllers share, the joints are driven with the measured force
    plus the computed internal torque, the engine integrated, the markers' motion reported axis by
    axis, the marker set points tracked by the inverse-kinematics solver and the tracked
    coordinates turned into joint set points. */
module IkStep {
  import opened ControlCommon
  import opened Preprocess
  import opened IkSetup

  /** The accuracy the inverse-kinematics solver is given. */
  const IkAccuracy: real := 1.0e-4

  /** The OpenSim code this variant calls beyond what both controllers share: the motion of a
      marker (by its index in the model's marker set) and of a coordinate (by its index in the
      coordinate set) at a state, and the inverse-kinematics solver's assemble and track from a
      state, given the marker labels, the one-row table of marker set points, the marker weights
      and the accuracy. */
  datatype IkEnvironment = IkEnvironment(
    osim: OsimEnvironment,
    markerMotion: (EngineState, nat) -> MarkerMotion,
    coordinateMotion: (EngineState, nat) -> CoordinateMotion,
    track: (EngineState, seq<string>, seq<Vec3>, seq<MarkerWeight>, real) -> EngineState)

  // ---------------------------------------------------------------------------------------
  // Control step
  // ---------------------------------------------------------------------------------------

  /** The engine state after the loop of RunControlStep that sets joints 0..n-1 from their
      measurements: the coordinate's value and speed, and the actuator's overriding actuation
      equal to the measured force plus the internal torque of the output vector. */
  ghost function DrivenJoints(lay: Layout, st: EngineState, measures: seq<RobotVariables>, outputs: seq<real>,
                              coords: seq<nat>, n: nat): EngineState
    requires lay.Valid() && n <= |measures| && n <= |coords| && n * lay.outStride <= |outputs|
    decreases n
  {
    if n == 0 then st
    else
      MulMonotone(n - 1, n, lay.outStride);
      SlotInside(n - 1, n, lay.outStride, lay.torqueInt);
      SetJoint(DrivenJoints(lay, st, measures, outputs, coords, n - 1), coords[n - 1], n - 1,
               measures[n - 1].position, measures[n - 1].velocity,
               measures[n - 1].force + outputs[lay.OutSlot(n - 1, lay.torqueInt)])
  }

  /** Every driven joint's actuator carries its measured force plus its internal torque; when the
      joints drive distinct coordinates, each coordinate holds its joint's measured position and
      velocity. */
  lemma {:induction false} DrivenJointsHold(lay: Layout, st: EngineState, measures: seq<RobotVariables>, outputs: seq<real>,
                                            coords: seq<nat>, n: nat, j: nat)
    requires lay.Valid() && n <= |measures| && n <= |coords| && n * lay.outStride <= |outputs| && j < n
    ensures lay.OutSlot(j, lay.torqueInt) < |outputs|
    ensures var d := DrivenJoints(lay, st, measures, outputs, coords, n);
            j in d.actuation && d.actuation[j] == measures[j].force + outputs[lay.OutSlot(j, lay.torqueInt)]
    ensures (forall i, k | 0 <= i < k < n :: coords[i] != coords[k]) ==>
              var d := DrivenJoints(lay, st, measures, outputs, coords, n);
              && coords[j] in d.values && d.values[coords[j]] == measures[j].position
              && coords[j] in d.speeds && d.speeds[coords[j]] == measures[j].velocity
    decreases n
  {
    SlotInside(j, n, lay.outStride, lay.torqueInt);
    MulMonotone(n - 1, n, lay.outStride);
    if j < n - 1 {
      DrivenJointsHold(lay, st, measures, outputs, coords, n - 1, j);
    }
  }

  /** The loop of RunControlStep that hands the measurements to the engine. */
  method DriveJoints(lay: Layout, st: EngineState, jointMeasures: array<RobotVariables>, outputs: seq<real>,
                     coords: seq<nat>, n: nat) returns (driven: EngineState)
    requires lay.Valid() && n <= jointMeasures.Length && n <= |coords| && n * lay.outStride <= |outputs|
    ensures driven == DrivenJoints(lay, st, jointMeasures[..n], outputs, coords, n)
  {
    driven := st;
    for jointIndex := 0 to n
      invariant driven == DrivenJoints(lay, st, jointMeasures[..n], outputs, coords, jointIndex)
    {
      MulMonotone(jointIndex + 1, n, lay.outStride);
      SlotInside(jointIndex, jointIndex + 1, lay.outStride, lay.torqueInt);
      var actuatorOutputsIndex: nat := lay.OutSlot(jointIndex, 0);
      var resultingTorque := jointMeasures[jointIndex].force + outputs[actuatorOutputsIndex + lay.torqueInt];
      driven := SetJoint(driven, coords[jointIndex], jointIndex, jointMeasures[jointIndex].position,
                         jointMeasures[jointIndex].velocity, resultingTorque);
    }
  }

  /** Axis a of a marker as reported: component a of the marker's location, velocity and
      acceleration; the force and stiffness of the record stay. */
  function MarkerAxisMeasure(previous: RobotVariables, motion: MarkerMotion, a: nat): RobotVariables
    requires a < 3
  {
    previous.(position := Component(motion.location, a), velocity := Component(motion.velocity, a),
              acceleration := Component(motion.acceleration, a))
  }

  /** The position set points of the three axes of marker m, as an offset. */
  function AxisOffset(axisSetpoints: seq<RobotVariables>, m: nat): Vec3
    requires 3 * m + 2 < |axisSetpoints|
  {
    Vec3(axisSetpoints[3 * m].position, axisSetpoints[3 * m + 1].position, axisSetpoints[3 * m + 2].position)
  }

  /** The marker loop of RunControlStep: axis 3 * m + a reports component a of marker m's motion
      at the state, and marker m's entry of the set-point table is its initial location plus the
      position set points of its three axes. */
  method ReadMarkers(motion: (EngineState, nat) -> MarkerMotion, st: EngineState, markerIndexes: seq<nat>,
                     initialLocations: seq<Vec3>, axisMeasures: array<RobotVariables>, axisSetpoints: array<RobotVariables>)
    returns (table: seq<Vec3>)
    requires |initialLocations| == |markerIndexes|
    requires 3 * |markerIndexes| <= axisMeasures.Length && 3 * |markerIndexes| <= axisSetpoints.Length
    requires axisMeasures != axisSetpoints
    modifies axisMeasures
    ensures |table| == |markerIndexes|
    ensures forall m | 0 <= m < |markerIndexes| :: table[m] == Add(initialLocations[m], AxisOffset(axisSetpoints[..], m))
    ensures forall k | 0 <= k < 3 * |markerIndexes| ::
              axisMeasures[k] == MarkerAxisMeasure(old(axisMeasures[k]), motion(st, markerIndexes[k / 3]), k % 3)
    ensures forall k | 3 * |markerIndexes| <= k < axisMeasures.Length :: axisMeasures[k] == old(axisMeasures[k])
  {
    table := [];
    for markerIndex := 0 to |markerIndexes|
      invariant |table| == markerIndex
      invariant forall m | 0 <= m < markerIndex :: table[m] == Add(initialLocations[m], AxisOffset(axisSetpoints[..], m))
      invariant forall k | 0 <= k < 3 * markerIndex ::
                  axisMeasures[k] == MarkerAxisMeasure(old(axisMeasures[k]), motion(st, markerIndexes[k / 3]), k % 3)
      invariant forall k | 3 * markerIndex <= k < axisMeasures.Length :: axisMeasures[k] == old(axisMeasures[k])
    {
      var markerMotion := motion(st, markerIndexes[markerIndex]);
      var markerSetpoint := [0.0, 0.0, 0.0];
      for axisIndex := 0 to 3
        invariant |markerSetpoint| == 3
        invariant forall a | 0 <= a < axisIndex :: markerSetpoint[a] == axisSetpoints[3 * markerIndex + a].position
        invariant forall k | 0 <= k < 3 * markerIndex + axisIndex ::
                    axisMeasures[k] == MarkerAxisMeasure(old(axisMeasures[k]), motion(st, markerIndexes[k / 3]), k % 3)
        invariant forall k | 3 * markerIndex + axisIndex <= k < axisMeasures.Length :: axisMeasures[k] == old(axisMeasures[k])
      {
        var markerAxisIndex := 3 * markerIndex + axisIndex;
        MarkerAxisSlot(markerIndex, axisIndex);
        axisMeasures[markerAxisIndex] := MarkerAxisMeasure(axisMeasures[markerAxisIndex], markerMotion, axisIndex);
        markerSetpoint := markerSetpoint[axisIndex := axisSetpoints[markerAxisIndex].position];
      }
      table := table + [Add(initialLocations[markerIndex], Vec3(markerSetpoint[0], markerSetpoint[1], markerSetpoint[2]))];
    }
  }

  /** Joint set point from the tracked coordinate: its value, speed and acceleration, and as force
      the control action (tracked position minus measured position) minus the internal torque;
      the stiffness of the record stays. */
  function TrackedSetpoint(previous: RobotVariables, tracked: CoordinateMotion, measuredPosition: real, internalTorque: real): (r: RobotVariables)
    ensures r.position == tracked.value && r.velocity == tracked.speed && r.acceleration == tracked.acceleration
    ensures r.stiffness == previous.stiffness
    ensures r.force == (tracked.value - measuredPosition) - internalTorque
    ensures r.force + internalTorque == r.position - measuredPosition
  {
    previous.(position := tracked.value, velocity := tracked.speed, acceleration := tracked.acceleration,
              force := (tracked.value - measuredPosition) - internalTorque)
  }

  /** The last loop of RunControlStep: joint set points 0..n-1 from the tracked state; the rest
      stay as they were. */
  method SetJointSetpoints(lay: Layout, motion: (EngineState, nat) -> CoordinateMotion, tracked: EngineState, coords: seq<nat>,
                           jointMeasures: array<RobotVariables>, outputs: seq<real>, jointSetpoints: array<RobotVariables>, n: nat)
    requires lay.Valid() && n <= |coords| && n <= jointMeasures.Length && n <= jointSetpoints.Length
    requires n * lay.outStride <= |outputs| && jointMeasures != jointSetpoints
    modifies jointSetpoints
    ensures forall j | 0 <= j < n ::
              lay.OutSlot(j, lay.torqueInt) < |outputs|
              && jointSetpoints[j] == TrackedSetpoint(old(jointSetpoints[j]), motion(tracked, coords[j]), jointMeasures[j].position,
                                                      outputs[lay.OutSlot(j, lay.torqueInt)])
    ensures forall j | n <= j < jointSetpoints.Length :: jointSetpoints[j] == old(jointSetpoints[j])
  {
    for jointIndex := 0 to n
      invariant forall j | 0 <= j < jointIndex ::
                  lay.OutSlot(j, lay.torqueInt) < |outputs|
                  && jointSetpoints[j] == TrackedSetpoint(old(jointSetpoints[j]), motion(tracked, coords[j]), jointMeasures[j].position,
                                                          outputs[lay.OutSlot(j, lay.torqueInt)])
      invariant forall j | jointIndex <= j < jointSetpoints.Length :: jointSetpoints[j] == old(jointSetpoints[j])
    {
      SlotInside(jointIndex, n, lay.outStride, lay.torqueInt);
      var actuatorOutputsIndex: nat := lay.OutSlot(jointIndex, 0);
      jointSetpoints[jointIndex] := TrackedSetpoint(jointSetpoints[jointIndex], motion(tracked, coords[jointIndex]),
                                                    jointMeasures[jointIndex].position, outputs[actuatorOutputsIndex + lay.torqueInt]);
    }
  }

  /** Marker m's entry of the set-point table is its initial location plus the position set points
      of its three axes. */
  ghost predicate SetpointTable(table: seq<Vec3>, initialLocations: seq<Vec3>, axisSetpoints: seq<RobotVariables>)
  {
    && |table| == |initialLocations| && 3 * |table| <= |axisSetpoints|
    && forall m | 0 <= m < |table| :: table[m] == Add(initialLocations[m], AxisOffset(axisSetpoints, m))
  }

  /** The effect of the part of RunControlStep after the sample handling, from the engine state
      `st` at its start, the joint measures and the output vector: the axis measures
      `axisAfter` report the markers' motion in the integrated state (the rest of the list as
      `axisBefore`), the set-point table holds the markers' initial locations plus their axis set
      points, the engine holds the solver's tracked state, and the joint set points
      `setpointsAfter` follow the tracked coordinates (the rest of the list as
      `setpointsBefore`). */
  ghost predicate MarkersFollowed(lay: Layout, env: IkEnvironment, st: EngineState, measures: seq<RobotVariables>,
                                  outputs: seq<real>, coords: seq<nat>, timeDelta: real,
                                  markerIndexes: seq<nat>, labels: seq<string>, weights: seq<MarkerWeight>,
                                  locations: seq<Vec3>, axisBefore: seq<RobotVariables>, axisAfter: seq<RobotVariables>,
                                  axisSetpoints: seq<RobotVariables>, table: seq<Vec3>, engine: EngineState,
                                  setpointsBefore: seq<RobotVariables>, setpointsAfter: seq<RobotVariables>)
    requires lay.Valid() && |measures| <= |coords| && |measures| * lay.outStride <= |outputs|
  {
    var integrated := env.osim.integrate(DrivenJoints(lay, st, measures, outputs, coords, |measures|), timeDelta);
    && |axisAfter| == |axisBefore| && 3 * |markerIndexes| <= |axisAfter|
    && (forall k | 0 <= k < 3 * |markerIndexes| ::
          axisAfter[k] == MarkerAxisMeasure(axisBefore[k], env.markerMotion(integrated, markerIndexes[k / 3]), k % 3))
    && (forall k | 3 * |markerIndexes| <= k < |axisAfter| :: axisAfter[k] == axisBefore[k])
    && SetpointTable(table, locations, axisSetpoints)
    && engine == env.track(integrated, labels, table, weights, IkAccuracy)
    && |setpointsAfter| == |setpointsBefore| && |measures| <= |setpointsAfter|
    && (forall j | 0 <= j < |measures| ::
          lay.OutSlot(j, lay.torqueInt) < |outputs|
          && setpointsAfter[j] == TrackedSetpoint(setpointsBefore[j], env.coordinateMotion(engine, coords[j]),
                                                  measures[j].position, outputs[lay.OutSlot(j, lay.torqueInt)]))
    && (forall j | |measures| <= j < |setpointsAfter| :: setpointsAfter[j] == setpointsBefore[j])
  }
}
