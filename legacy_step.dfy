/** The per-tick work of the legacy controller of open_sim_model-legacy.cpp: posing the engine
    from the joint measurements, the force-output vector written after inverse dynamics, the axis
    measures read back from the engine, and the copy of the axis set points into the joint set
    points. */
module LegacyStep {
  import opened ControlCommon
  import opened Preprocess
  import opened IkSetup
  import opened OsimModel

  /** The sizes of EMGOptimizerSystem's per-joint blocks, POSITION_VARIABLES_NUMBER and
      FORCE_VARIABLES_NUMBER. Their values live in a header that is not part of this model. */
  datatype Strides = Strides(positionVariables: nat, forceVariables: nat)
  {
    /** Index of slot f of joint j in the force-output vector. */
    function ForceSlot(j: nat, f: nat): nat {
      j * forceVariables + f
    }
  }

  /** The force block must hold the two slots the code writes for each joint, or the write of the
      last joint's second slot falls outside the vector. */
  type ValidStrides = s: Strides | 2 <= s.forceVariables
    witness Strides(3, 2)

  /** The entries of a SimTK::Vector created with a size only: whatever the library puts there. */
  type Blank = f: nat -> seq<real> | forall n :: |f(n)| == n
    witness (n: nat) => seq(n, _ => 0.0)

  /** CalculateTorques: the force-output vector as the EMG processor leaves it, from the state, the
      EMG inputs, the position inputs and the force outputs; it keeps the vector's size. */
  type TorqueCalculator = f: (EngineState, seq<real>, seq<real>, seq<real>) -> seq<real>
    | forall st, emg, positions, forces :: |f(st, emg, positions, forces)| == |forces|
    witness (st: EngineState, emg: seq<real>, positions: seq<real>, forces: seq<real>) => forces

  /** The code the legacy controller calls but that is not part of this model: Manager::integrate
      over a time step, the inverse-dynamics solve (the generalized force of each mobility), the
      motion of a coordinate at a state, the optimizer run, CalculateTorques, the content of fresh
      vectors, and the floating-point value of a quotient by a zero torque. */
  datatype LegacyEnvironment = LegacyEnvironment(
    integrate: (EngineState, real) -> EngineState,
    solve: (EngineState, seq<real>) -> (nat -> real),
    coordinateMotion: (EngineState, nat) -> CoordinateMotion,
    fit: Fitter,
    calculateTorques: TorqueCalculator,
    blank: Blank,
    zeroTorqueQuotient: real -> real)

  /** The second slot of a joint's force block: its position error divided twice by its
      inverse-dynamics torque, with no guard against a zero torque. */
  function LegacyStiffness(env: LegacyEnvironment, error: real, torque: real): (k: real)
    ensures torque != 0.0 ==> k * torque * torque == error
    ensures torque == 0.0 ==> k == env.zeroTorqueQuotient(error)
  {
    if torque != 0.0 then
      var positionError := error / torque;
      assert positionError * torque == error;
      positionError / torque
    else env.zeroTorqueQuotient(error)
  }

  // ---------------------------------------------------------------------------------------
  // Posing the engine
  // ---------------------------------------------------------------------------------------

  /** The engine state after the first joint loop has set joints 0..n-1: the value and speed of
      each joint's coordinate and the force of its actuator, from the joint's measurement. */
  ghost function LegacyPose(st: EngineState, actuators: seq<Actuator>, measures: seq<RobotVariables>, n: nat): EngineState
    requires n <= |actuators| && n <= |measures|
    decreases n
  {
    if n == 0 then st
    else
      SetJoint(LegacyPose(st, actuators, measures, n - 1), actuators[n - 1].coordinateIndex, n - 1,
               measures[n - 1].position, measures[n - 1].velocity, measures[n - 1].force)
  }

  /** Every posed joint's actuator carries its measured force; when the joints drive distinct
      coordinates, each coordinate holds its joint's measured position and velocity. */
  lemma {:induction false} LegacyPoseHolds(st: EngineState, actuators: seq<Actuator>, measures: seq<RobotVariables>, n: nat, j: nat)
    requires n <= |actuators| && n <= |measures| && j < n
    ensures var p := LegacyPose(st, actuators, measures, n);
            j in p.actuation && p.actuation[j] == measures[j].force
    ensures (forall i, k | 0 <= i < k < n :: actuators[i].coordinateIndex != actuators[k].coordinateIndex) ==>
              var p := LegacyPose(st, actuators, measures, n);
              var c := actuators[j].coordinateIndex;
              && c in p.values && p.values[c] == measures[j].position
              && c in p.speeds && p.speeds[c] == measures[j].velocity
    decreases n
  {
    if j < n - 1 {
      LegacyPoseHolds(st, actuators, measures, n - 1, j);
    }
  }

  /** The acceleration list handed to the solver: one entry per joint, its measured acceleration. */
  function JointAccelerations(measures: seq<RobotVariables>): seq<real> {
    seq(|measures|, j requires 0 <= j < |measures| => measures[j].acceleration)
  }

  /** The first joint loop of RunControlStep. */
  method PoseMeasuredJoints(st: EngineState, actuators: seq<Actuator>, jointMeasures: array<RobotVariables>, n: nat)
    returns (posed: EngineState, accelerations: seq<real>)
    requires n <= |actuators| && n <= jointMeasures.Length
    ensures posed == LegacyPose(st, actuators, jointMeasures[..n], n)
    ensures |accelerations| == n && forall j | 0 <= j < n :: accelerations[j] == jointMeasures[j].acceleration
  {
    posed := st;
    accelerations := seq(n, _ => 0.0);
    for jointIndex := 0 to n
      invariant posed == LegacyPose(st, actuators, jointMeasures[..n], jointIndex)
      invariant |accelerations| == n
      invariant forall j | 0 <= j < jointIndex :: accelerations[j] == jointMeasures[j].acceleration
    {
      var jointCoordinate := actuators[jointIndex].coordinateIndex;
      posed := SetJoint(posed, jointCoordinate, jointIndex, jointMeasures[jointIndex].position,
                        jointMeasures[jointIndex].velocity, jointMeasures[jointIndex].force);
      accelerations := accelerations[jointIndex := jointMeasures[jointIndex].acceleration];
    }
  }

  // ---------------------------------------------------------------------------------------
  // Force outputs
  // ---------------------------------------------------------------------------------------

  /** Joint j's force block starts with its inverse-dynamics torque and then its unguarded
      stiffness. */
  ghost predicate JointForcesWritten(strides: ValidStrides, env: LegacyEnvironment, out: seq<real>, j: nat,
                                     torque: real, error: real)
  {
    && strides.ForceSlot(j, 1) < |out|
    && out[strides.ForceSlot(j, 0)] == torque
    && out[strides.ForceSlot(j, 1)] == LegacyStiffness(env, error, torque)
  }

  /** The force loop has written joints 0..m-1 of n: their two slots hold torque and stiffness
      (the error is the set-point position minus the measured position), and every other slot is
      as it was. */
  ghost predicate ForcesWritten(strides: ValidStrides, env: LegacyEnvironment, out: seq<real>, before: seq<real>,
                                forces: nat -> real, measures: seq<RobotVariables>, setpoints: seq<RobotVariables>,
                                m: nat, n: nat)
    requires m <= n && n <= |measures| && n <= |setpoints|
  {
    && |out| == n * strides.forceVariables && |before| == |out|
    && (forall j: nat | j < m ::
          JointForcesWritten(strides, env, out, j, forces(j), setpoints[j].position - measures[j].position))
    && (forall j: nat, f: nat | j < n && f < strides.forceVariables && (m <= j || 2 <= f) ::
          SlotInside(j, n, strides.forceVariables, f);
          out[strides.ForceSlot(j, f)] == before[strides.ForceSlot(j, f)])
  }

  /** The two writes of one turn of the force loop, for joint m. */
  function WithJointForces(strides: ValidStrides, out: seq<real>, m: nat, torque: real, stiffness: real): seq<real>
    requires strides.ForceSlot(m, 1) < |out|
  {
    out[strides.ForceSlot(m, 0) := torque][strides.ForceSlot(m, 1) := stiffness]
  }

  /** The writes for joint m leave the blocks of the other joints, and the slots past the second
      of joint m's block, as they were. */
  lemma WithJointForcesKeeps(strides: ValidStrides, out: seq<real>, m: nat, torque: real, stiffness: real, j: nat, f: nat)
    requires strides.ForceSlot(m, 1) < |out| && f < strides.forceVariables && (j != m || 2 <= f)
    ensures strides.ForceSlot(j, f) != strides.ForceSlot(m, 0) && strides.ForceSlot(j, f) != strides.ForceSlot(m, 1)
  {
    if j != m {
      SlotsApart(j, m, strides.forceVariables, f, 0);
      SlotsApart(j, m, strides.forceVariables, f, 1);
    }
  }

  /** One turn of the force loop extends the written joints by joint m. */
  lemma ForcesWrittenStep(strides: ValidStrides, env: LegacyEnvironment, out: seq<real>, before: seq<real>,
                          forces: nat -> real, measures: seq<RobotVariables>, setpoints: seq<RobotVariables>,
                          m: nat, n: nat)
    requires m < n && n <= |measures| && n <= |setpoints|
    requires ForcesWritten(strides, env, out, before, forces, measures, setpoints, m, n)
    ensures strides.ForceSlot(m, 1) < |out|
    ensures ForcesWritten(strides, env,
              WithJointForces(strides, out, m, forces(m), LegacyStiffness(env, setpoints[m].position - measures[m].position, forces(m))),
              before, forces, measures, setpoints, m + 1, n)
  {
    var F := strides.forceVariables;
    SlotInside(m, n, F, 1);
    var next := WithJointForces(strides, out, m, forces(m), LegacyStiffness(env, setpoints[m].position - measures[m].position, forces(m)));
    forall j: nat | j < m
      ensures JointForcesWritten(strides, env, next, j, forces(j), setpoints[j].position - measures[j].position)
    {
      SlotsApart(j, m, F, 0, 0);
      SlotsApart(j, m, F, 0, 1);
      SlotsApart(j, m, F, 1, 0);
      SlotsApart(j, m, F, 1, 1);
    }
    forall j: nat, f: nat | j < n && f < F && (m + 1 <= j || 2 <= f)
      ensures strides.ForceSlot(j, f) < |next| && next[strides.ForceSlot(j, f)] == before[strides.ForceSlot(j, f)]
    {
      SlotInside(j, n, F, f);
      WithJointForcesKeeps(strides, out, m, forces(m), LegacyStiffness(env, setpoints[m].position - measures[m].position, forces(m)), j, f);
    }
  }

  /** The force loop of RunControlStep: slot 0 of joint j's block gets its inverse-dynamics
      torque, slot 1 its position error divided twice by that torque. */
  method WriteForceOutputs(strides: ValidStrides, env: LegacyEnvironment, forces: nat -> real,
                           jointMeasures: array<RobotVariables>, jointSetpoints: array<RobotVariables>, n: nat,
                           forceOutputs: array<real>)
    requires n <= jointMeasures.Length && n <= jointSetpoints.Length
    requires forceOutputs.Length == n * strides.forceVariables
    modifies forceOutputs
    ensures ForcesWritten(strides, env, forceOutputs[..], old(forceOutputs[..]), forces,
                          jointMeasures[..n], jointSetpoints[..n], n, n)
  {
    for jointIndex := 0 to n
      invariant ForcesWritten(strides, env, forceOutputs[..], old(forceOutputs[..]), forces,
                              jointMeasures[..n], jointSetpoints[..n], jointIndex, n)
    {
      label turn:
      ForcesWrittenStep(strides, env, forceOutputs[..], old(forceOutputs[..]), forces,
                        jointMeasures[..n], jointSetpoints[..n], jointIndex, n);
      var torque := forces(jointIndex);
      forceOutputs[jointIndex * strides.forceVariables] := torque;
      var stiffness := LegacyStiffness(env, jointSetpoints[jointIndex].position - jointMeasures[jointIndex].position, torque);
      forceOutputs[jointIndex * strides.forceVariables + 1] := stiffness;
      assert forceOutputs[..] == WithJointForces(strides, old@turn(forceOutputs[..]), jointIndex, torque, stiffness);
    }
  }

  /** The force-output vector of RunControlStep: a fresh vector of FORCE_VARIABLES_NUMBER
      entries per joint, filled by the force loop. */
  method NewForceOutputs(strides: ValidStrides, env: LegacyEnvironment, forces: nat -> real,
                         jointMeasures: array<RobotVariables>, jointSetpoints: array<RobotVariables>, n: nat)
    returns (forceOutputs: seq<real>)
    requires n <= jointMeasures.Length && n <= jointSetpoints.Length
    ensures ForcesWritten(strides, env, forceOutputs, env.blank(n * strides.forceVariables), forces,
                          jointMeasures[..n], jointSetpoints[..n], n, n)
  {
    var blankOutputs := env.blank(n * strides.forceVariables);
    var outputs := new real[|blankOutputs|](k requires 0 <= k < |blankOutputs| => blankOutputs[k]);
    assert outputs[..] == blankOutputs;
    WriteForceOutputs(strides, env, forces, jointMeasures, jointSetpoints, n, outputs);
    forceOutputs := outputs[..];
  }

  // ---------------------------------------------------------------------------------------
  // Axis measures and set points
  // ---------------------------------------------------------------------------------------

  /** Axis j as reported: the value, speed and acceleration of its joint's coordinate at the
      state, and the first two slots of its force block. */
  function ReportedAxis(previous: RobotVariables, motion: CoordinateMotion, force: real, stiffness: real): RobotVariables {
    previous.(position := motion.value, velocity := motion.speed, acceleration := motion.acceleration,
              force := force, stiffness := stiffness)
  }

  /** Axis j reports the motion of the coordinate of actuator j and the two force slots of joint j. */
  ghost predicate AxisReported(strides: ValidStrides, env: LegacyEnvironment, st: EngineState, actuators: seq<Actuator>,
                               out: seq<real>, now: RobotVariables, previous: RobotVariables, j: nat)
  {
    && j < |actuators| && strides.ForceSlot(j, 1) < |out|
    && now == ReportedAxis(previous, env.coordinateMotion(st, actuators[j].coordinateIndex),
                           out[strides.ForceSlot(j, 0)], out[strides.ForceSlot(j, 1)])
  }

  /** The axis loop of RunControlStep. */
  method ReportAxes(strides: ValidStrides, env: LegacyEnvironment, st: EngineState, actuators: seq<Actuator>,
                    forceOutputs: seq<real>, n: nat, axisMeasures: array<RobotVariables>)
    requires n <= |actuators| && n <= axisMeasures.Length && |forceOutputs| == n * strides.forceVariables
    modifies axisMeasures
    ensures forall j: nat | j < n :: AxisReported(strides, env, st, actuators, forceOutputs, axisMeasures[j], old(axisMeasures[j]), j)
    ensures forall j | n <= j < axisMeasures.Length :: axisMeasures[j] == old(axisMeasures[j])
  {
    for axisIndex := 0 to n
      invariant forall j: nat | j < axisIndex ::
                  AxisReported(strides, env, st, actuators, forceOutputs, axisMeasures[j], old(axisMeasures[j]), j)
      invariant forall j | axisIndex <= j < axisMeasures.Length :: axisMeasures[j] == old(axisMeasures[j])
    {
      SlotInside(axisIndex, n, strides.forceVariables, 1);
      var axisCoordinate := actuators[axisIndex].coordinateIndex;
      var motion := env.coordinateMotion(st, axisCoordinate);
      axisMeasures[axisIndex] := ReportedAxis(axisMeasures[axisIndex], motion,
                                              forceOutputs[axisIndex * strides.forceVariables],
                                              forceOutputs[axisIndex * strides.forceVariables + 1]);
    }
  }

  /** The last loop of RunControlStep: each joint set point takes position, velocity, acceleration
      and force from the axis set point of the same index. */
  method CopySetpoints(n: nat, jointSetpoints: array<RobotVariables>, axisSetpoints: array<RobotVariables>)
    requires n <= jointSetpoints.Length && n <= axisSetpoints.Length && jointSetpoints != axisSetpoints
    modifies jointSetpoints
    ensures forall j | 0 <= j < n :: jointSetpoints[j] == CopiedSetpoint(old(jointSetpoints[j]), axisSetpoints[j])
    ensures forall j | n <= j < jointSetpoints.Length :: jointSetpoints[j] == old(jointSetpoints[j])
  {
    for jointIndex := 0 to n
      invariant forall j | 0 <= j < jointIndex :: jointSetpoints[j] == CopiedSetpoint(old(jointSetpoints[j]), axisSetpoints[j])
      invariant forall j | jointIndex <= j < jointSetpoints.Length :: jointSetpoints[j] == old(jointSetpoints[j])
    {
      jointSetpoints[jointIndex] := CopiedSetpoint(jointSetpoints[jointIndex], axisSetpoints[jointIndex]);
    }
  }

  // ---------------------------------------------------------------------------------------
  // One tick
  // ---------------------------------------------------------------------------------------

  /** What one RunControlStep computes before the axis loop, from the engine state `st` and the
      measurements and set points of the n = |actuators| joints: the EMG inputs are the sensor
      readings; the position inputs are a fresh vector the code never writes; the engine is posed
      from the measurements and integrated from time 0 over the time step; `written` is a fresh
      force vector with each joint's torque (solved at the integrated state for the measured
      accelerations) and stiffness written; and the force outputs are `written`, or in OPERATION
      what CalculateTorques is taken to leave in them. */
  ghost predicate TickComputed(strides: ValidStrides, env: LegacyEnvironment, phase: Phase, st: EngineState,
                               actuators: seq<Actuator>, measures: seq<RobotVariables>, setpoints: seq<RobotVariables>,
                               readings: seq<real>, timeDelta: real, emgInputs: seq<real>, positionInputs: seq<real>,
                               written: seq<real>, forceOutputs: seq<real>, posed: EngineState, engine: EngineState)
    requires |measures| == |actuators| && |setpoints| == |actuators|
  {
    && emgInputs == readings
    && positionInputs == env.blank(strides.positionVariables * |actuators|)
    && posed == LegacyPose(st, actuators, measures, |actuators|)
    && engine == env.integrate(posed.(time := 0.0), timeDelta)
    && ForcesWritten(strides, env, written, env.blank(|actuators| * strides.forceVariables),
                     env.solve(engine, JointAccelerations(measures)), measures, setpoints, |actuators|, |actuators|)
    && forceOutputs == (if phase == Operation then env.calculateTorques(engine, emgInputs, positionInputs, written) else written)
  }
}
