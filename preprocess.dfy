/** Sample preparation shared by the two OpenSim controllers (osim_model.cpp and osim_model-ik.cpp
    carry the same code): packing the joint measurements into the input vector, and
    PreProcessSample, which poses the Dynamics Engine from that vector, runs inverse dynamics and
    writes each joint's torque and stiffness into the output vector. */
module Preprocess {
  import opened ControlCommon

  /** InverseDynamicsSolver::solve at a state and one acceleration target per coordinate: the
      generalized force of each mobility, or None when the solver throws. */
  type InverseDynamics = (EngineState, seq<real>) -> Option<nat -> real>

  /** The code the two OpenSim controllers call but that is not part of this model: the inverse
      dynamics solver, Manager::integrate over a time step, and the EMG processor's
      GetInitialParameters, optimizer run and CalculateOutputs (entry k of the vector it returns,
      from the parameters last set, the EMG inputs and the packed joint inputs). */
  datatype OsimEnvironment = OsimEnvironment(
    inverseDynamics: InverseDynamics,
    integrate: (EngineState, real) -> EngineState,
    initialParameters: seq<real>,
    fit: Fitter,
    calculateOutputs: (Option<seq<real>>, seq<real>, seq<real>, int) -> real)

  /** The vector CalculateOutputs returns in OPERATION, taken to have as many entries as the output
      vector it replaces. */
  function ProcessorOutputs(env: OsimEnvironment, parameters: Option<seq<real>>, emg: seq<real>, inputs: seq<real>, count: nat): (r: seq<real>)
    ensures |r| == count
    ensures forall k | 0 <= k < count :: r[k] == env.calculateOutputs(parameters, emg, inputs, k)
  {
    seq(count, k => env.calculateOutputs(parameters, emg, inputs, k))
  }

  // ---------------------------------------------------------------------------------------
  // Slot facts for one layout
  // ---------------------------------------------------------------------------------------

  lemma InputSlotsInside(lay: Layout, j: nat, n: nat)
    requires lay.Valid() && j < n
    ensures lay.InSlot(j, lay.position) < n * lay.inStride && lay.InSlot(j, lay.velocity) < n * lay.inStride
    ensures lay.InSlot(j, lay.acceleration) < n * lay.inStride && lay.InSlot(j, lay.setpoint) < n * lay.inStride
    ensures lay.InSlot(j, lay.torqueExt) < n * lay.inStride
  {
    SlotInside(j, n, lay.inStride, lay.position);
    SlotInside(j, n, lay.inStride, lay.velocity);
    SlotInside(j, n, lay.inStride, lay.acceleration);
    SlotInside(j, n, lay.inStride, lay.setpoint);
    SlotInside(j, n, lay.inStride, lay.torqueExt);
  }

  lemma OutputSlotsInside(lay: Layout, j: nat, n: nat)
    requires lay.Valid() && j < n
    ensures lay.OutSlot(j, lay.torqueInt) < n * lay.outStride && lay.OutSlot(j, lay.stiffness) < n * lay.outStride
  {
    SlotInside(j, n, lay.outStride, lay.torqueInt);
    SlotInside(j, n, lay.outStride, lay.stiffness);
  }

  /** No input slot of an earlier joint is a slot of joint j. */
  lemma EarlierInputSlotsApart(lay: Layout, j: nat)
    ensures forall i: nat, f: nat, g: nat | i < j && f < lay.inStride && g < lay.inStride :: lay.InSlot(i, f) != lay.InSlot(j, g)
  {
    forall i: nat, f: nat, g: nat | i < j && f < lay.inStride && g < lay.inStride
      ensures lay.InSlot(i, f) != lay.InSlot(j, g)
    {
      SlotsApart(i, j, lay.inStride, f, g);
    }
  }

  /** No output slot of an earlier joint is a slot of joint j. */
  lemma EarlierOutputSlotsApart(lay: Layout, j: nat)
    ensures forall i: nat, f: nat, g: nat | i < j && f < lay.outStride && g < lay.outStride :: lay.OutSlot(i, f) != lay.OutSlot(j, g)
  {
    forall i: nat, f: nat, g: nat | i < j && f < lay.outStride && g < lay.outStride
      ensures lay.OutSlot(i, f) != lay.OutSlot(j, g)
    {
      SlotsApart(i, j, lay.outStride, f, g);
    }
  }

  /** PreProcessSample reads field f of joint j at `base + InSlot(j, f)`, where `base` is the
      number of EMG inputs: all reads for joints 0..n-1 stay inside a vector of `len` entries. */
  ghost predicate ShiftedReadsInside(lay: Layout, base: nat, n: nat, len: int) {
    n == 0 || base + lay.InSlot(n - 1, lay.MaxInputField()) < len
  }

  lemma ShiftedReadInside(lay: Layout, base: nat, j: nat, n: nat, len: nat)
    requires j < n && ShiftedReadsInside(lay, base, n, len)
    ensures base + lay.InSlot(j, lay.position) < len && base + lay.InSlot(j, lay.velocity) < len
    ensures base + lay.InSlot(j, lay.acceleration) < len && base + lay.InSlot(j, lay.setpoint) < len
    ensures base + lay.InSlot(j, lay.torqueExt) < len
  {
    ShiftedSlotInside(lay, base, j, n, lay.position, len);
    ShiftedSlotInside(lay, base, j, n, lay.velocity, len);
    ShiftedSlotInside(lay, base, j, n, lay.acceleration, len);
    ShiftedSlotInside(lay, base, j, n, lay.setpoint, len);
    ShiftedSlotInside(lay, base, j, n, lay.torqueExt, len);
  }

  lemma ShiftedReadsPrefix(lay: Layout, base: nat, m: nat, n: nat, len: nat)
    requires m <= n && ShiftedReadsInside(lay, base, n, len)
    ensures ShiftedReadsInside(lay, base, m, len)
  {
    if 0 < m {
      ShiftedSlotInside(lay, base, m - 1, n, lay.MaxInputField(), len);
    }
  }

  // ---------------------------------------------------------------------------------------
  // Packing the joint inputs (the first loop of RunControlStep)
  // ---------------------------------------------------------------------------------------

  /** The five input slots of joint j hold its measurement: field f of joint j sits at
      j * EMG_INPUT_VARS_NUMBER + f, and the setpoint slot carries the measured acceleration. */
  ghost predicate JointPacked(lay: Layout, inputs: seq<real>, j: nat, m: RobotVariables)
  {
    && lay.InSlot(j, lay.MaxInputField()) < |inputs|
    && inputs[lay.InSlot(j, lay.position)] == m.position
    && inputs[lay.InSlot(j, lay.velocity)] == m.velocity
    && inputs[lay.InSlot(j, lay.acceleration)] == m.acceleration
    && inputs[lay.InSlot(j, lay.setpoint)] == m.acceleration
    && inputs[lay.InSlot(j, lay.torqueExt)] == m.force
  }

  /** The packed input vector of a joint measurement list. */
  ghost predicate InputsPacked(lay: Layout, measures: seq<RobotVariables>, inputs: seq<real>)
  {
    && |inputs| == |measures| * lay.inStride
    && forall j | 0 <= j < |measures| :: JointPacked(lay, inputs, j, measures[j])
  }

  /** The five writes the packing loop makes for joint j. */
  function WithJointInputs(lay: Layout, inputs: seq<real>, j: nat, m: RobotVariables): seq<real>
    requires lay.Valid() && lay.InSlot(j, lay.MaxInputField()) < |inputs|
  {
    inputs[lay.InSlot(j, lay.position) := m.position][lay.InSlot(j, lay.velocity) := m.velocity]
          [lay.InSlot(j, lay.acceleration) := m.acceleration][lay.InSlot(j, lay.setpoint) := m.acceleration]
          [lay.InSlot(j, lay.torqueExt) := m.force]
  }

  /** A slot of joint i is none of the slots of another joint j. */
  lemma JointSlotsApart(lay: Layout, i: nat, j: nat, f: nat)
    requires i != j && f < lay.inStride
    ensures forall g | 0 <= g < lay.inStride :: lay.InSlot(i, f) != lay.InSlot(j, g)
  {
    if i < j {
      MulMonotone(i + 1, j, lay.inStride);
    } else {
      MulMonotone(j + 1, i, lay.inStride);
    }
  }

  /** Writing joint j packs joint j. */
  lemma WithJointInputsPacksJoint(lay: Layout, inputs: seq<real>, j: nat, m: RobotVariables)
    requires lay.Valid() && lay.InSlot(j, lay.MaxInputField()) < |inputs|
    ensures JointPacked(lay, WithJointInputs(lay, inputs, j, m), j, m)
  {
  }

  /** Writing joint j keeps every other joint packed. */
  lemma WithJointInputsKeeps(lay: Layout, inputs: seq<real>, j: nat, m: RobotVariables, i: nat, mi: RobotVariables)
    requires lay.Valid() && lay.InSlot(j, lay.MaxInputField()) < |inputs|
    requires i != j && JointPacked(lay, inputs, i, mi)
    ensures JointPacked(lay, WithJointInputs(lay, inputs, j, m), i, mi)
  {
    JointSlotsApart(lay, i, j, lay.position);
    JointSlotsApart(lay, i, j, lay.velocity);
    JointSlotsApart(lay, i, j, lay.acceleration);
    JointSlotsApart(lay, i, j, lay.setpoint);
    JointSlotsApart(lay, i, j, lay.torqueExt);
  }

  /** Writing joint j packs joint j and keeps every other joint packed. */
  lemma WithJointInputsPacks(lay: Layout, inputs: seq<real>, j: nat, m: RobotVariables, i: nat, mi: RobotVariables)
    requires lay.Valid() && lay.InSlot(j, lay.MaxInputField()) < |inputs|
    requires i != j ==> JointPacked(lay, inputs, i, mi)
    ensures JointPacked(lay, WithJointInputs(lay, inputs, j, m), j, m)
    ensures i != j ==> JointPacked(lay, WithJointInputs(lay, inputs, j, m), i, mi)
  {
    WithJointInputsPacksJoint(lay, inputs, j, m);
    if i != j {
      WithJointInputsKeeps(lay, inputs, j, m, i, mi);
    }
  }

  /** Packing joint j after joints 0..j-1 leaves joints 0..j packed. */
  lemma PackedPrefixStep(lay: Layout, inputs: seq<real>, measures: seq<RobotVariables>, j: nat)
    requires lay.Valid() && j < |measures| && lay.InSlot(j, lay.MaxInputField()) < |inputs|
    requires forall i | 0 <= i < j :: JointPacked(lay, inputs, i, measures[i])
    ensures forall i | 0 <= i < j + 1 :: JointPacked(lay, WithJointInputs(lay, inputs, j, measures[j]), i, measures[i])
  {
    forall i | 0 <= i < j + 1
      ensures JointPacked(lay, WithJointInputs(lay, inputs, j, measures[j]), i, measures[i])
    {
      WithJointInputsPacks(lay, inputs, j, measures[j], i, measures[i]);
    }
  }

  /** One turn of the packing loop: the five slots of joint j, starting at j * EMG_INPUT_VARS_NUMBER. */
  method WriteJointInputs(lay: Layout, actuatorInputs: array<real>, j: nat, m: RobotVariables)
    requires lay.Valid() && lay.InSlot(j, lay.MaxInputField()) < actuatorInputs.Length
    modifies actuatorInputs
    ensures actuatorInputs[..] == WithJointInputs(lay, old(actuatorInputs[..]), j, m)
  {
    var actuatorInputsIndex: nat := lay.InSlot(j, 0);
    ghost var written := actuatorInputs[..];
    actuatorInputs[actuatorInputsIndex + lay.position] := m.position;
    written := written[lay.InSlot(j, lay.position) := m.position];
    assert actuatorInputs[..] == written;
    actuatorInputs[actuatorInputsIndex + lay.velocity] := m.velocity;
    written := written[lay.InSlot(j, lay.velocity) := m.velocity];
    assert actuatorInputs[..] == written;
    actuatorInputs[actuatorInputsIndex + lay.acceleration] := m.acceleration;
    written := written[lay.InSlot(j, lay.acceleration) := m.acceleration];
    assert actuatorInputs[..] == written;
    actuatorInputs[actuatorInputsIndex + lay.setpoint] := m.acceleration;
    written := written[lay.InSlot(j, lay.setpoint) := m.acceleration];
    assert actuatorInputs[..] == written;
    actuatorInputs[actuatorInputsIndex + lay.torqueExt] := m.force;
  }

  /** The packing loop of RunControlStep: a vector of n * EMG_INPUT_VARS_NUMBER entries filled from
      the first n joint measurements; slots that no field names keep whatever the fresh vector held. */
  method PackJointInputs(lay: Layout, jointMeasures: array<RobotVariables>, n: nat) returns (inputs: seq<real>)
    requires lay.Valid() && n <= jointMeasures.Length
    ensures InputsPacked(lay, jointMeasures[..n], inputs)
  {
    ghost var measures := jointMeasures[..n];
    var actuatorInputs := new real[lay.InSize(n)];
    for j := 0 to n
      invariant forall i | 0 <= i < j :: JointPacked(lay, actuatorInputs[..], i, measures[i])
    {
      SlotInside(j, n, lay.inStride, lay.MaxInputField());
      ghost var current := actuatorInputs[..];
      WriteJointInputs(lay, actuatorInputs, j, jointMeasures[j]);
      PackedPrefixStep(lay, current, measures, j);
    }
    inputs := actuatorInputs[..];
  }

  // ---------------------------------------------------------------------------------------
  // PreProcessSample
  // ---------------------------------------------------------------------------------------

  /** Setting one joint in the engine state: the value and speed of its coordinate and the
      overriding actuation of its actuator. */
  function SetJoint(st: EngineState, coordinate: nat, joint: nat, value: real, speed: real, actuation: real): EngineState {
    st.(values := st.values[coordinate := value], speeds := st.speeds[coordinate := speed],
        actuation := st.actuation[joint := actuation])
  }

  /** The engine state after the first loop of PreProcessSample has set joints 0..n-1 from the
      inputs read at `base`; `coords[j]` is the coordinate index of joint j. */
  ghost function PoseJoints(lay: Layout, st: EngineState, input: seq<real>, base: nat, coords: seq<nat>, n: nat): EngineState
    requires n <= |coords| && ShiftedReadsInside(lay, base, n, |input|)
    decreases n
  {
    if n == 0 then st
    else
      ShiftedReadsPrefix(lay, base, n - 1, n, |input|);
      ShiftedReadInside(lay, base, n - 1, n, |input|);
      SetJoint(PoseJoints(lay, st, input, base, coords, n - 1), coords[n - 1], n - 1,
               input[base + lay.InSlot(n - 1, lay.position)], input[base + lay.InSlot(n - 1, lay.velocity)],
               input[base + lay.InSlot(n - 1, lay.torqueExt)])
  }

  /** The acceleration targets handed to the solver: one entry per coordinate, zero except at the
      coordinates of joints 0..n-1, which get their input accelerations (a later joint on the same
      coordinate overwrites an earlier one). */
  ghost function AccelerationTargets(lay: Layout, count: nat, input: seq<real>, base: nat, coords: seq<nat>, n: nat): (acc: seq<real>)
    requires n <= |coords| && ShiftedReadsInside(lay, base, n, |input|)
    requires forall j | 0 <= j < |coords| :: coords[j] < count
    ensures |acc| == count
    decreases n
  {
    if n == 0 then seq(count, _ => 0.0)
    else
      ShiftedReadsPrefix(lay, base, n - 1, n, |input|);
      ShiftedReadInside(lay, base, n - 1, n, |input|);
      AccelerationTargets(lay, count, input, base, coords, n - 1)[coords[n - 1] := input[base + lay.InSlot(n - 1, lay.acceleration)]]
  }

  /** k is the torque or the stiffness slot of one of the joints 0..n-1. */
  ghost predicate IsOutputSlot(lay: Layout, n: nat, k: nat) {
    exists j: nat :: j < n && (k == lay.OutSlot(j, lay.torqueInt) || k == lay.OutSlot(j, lay.stiffness))
  }

  /** Joint j's output slots hold its inverse-dynamics torque and the guarded stiffness computed
      from that torque and its position error (setpoint minus position). */
  ghost predicate JointOutputWritten(lay: Layout, out: seq<real>, input: seq<real>, base: nat, j: nat, torque: real)
  {
    && lay.OutSlot(j, lay.torqueInt) < |out| && lay.OutSlot(j, lay.stiffness) < |out|
    && base + lay.InSlot(j, lay.MaxInputField()) < |input|
    && out[lay.OutSlot(j, lay.torqueInt)] == torque
    && out[lay.OutSlot(j, lay.stiffness)]
       == Stiffness(torque, input[base + lay.InSlot(j, lay.setpoint)] - input[base + lay.InSlot(j, lay.position)])
  }

  /** After a successful solve: joint j's torque slot holds the solver's force for mobility j, its
      stiffness slot the guarded torque-per-position-error, and every other entry of the output
      vector is as it was. */
  ghost predicate OutputsWritten(lay: Layout, out: seq<real>, before: seq<real>, input: seq<real>, base: nat, n: nat, forces: nat -> real)
  {
    && |out| == |before| && n * lay.outStride <= |out|
    && (forall j: nat | j < n :: JointOutputWritten(lay, out, input, base, j, forces(j)))
    && (forall k: nat | k < |out| && !IsOutputSlot(lay, n, k) :: out[k] == before[k])
  }

  /** The two writes the output loop makes for joint j. */
  function WithJointOutputs(lay: Layout, out: seq<real>, j: nat, torque: real, stiffness: real): seq<real>
    requires lay.Valid() && (j + 1) * lay.outStride <= |out|
  {
    SlotInside(j, j + 1, lay.outStride, lay.torqueInt);
    SlotInside(j, j + 1, lay.outStride, lay.stiffness);
    out[lay.OutSlot(j, lay.torqueInt) := torque][lay.OutSlot(j, lay.stiffness) := stiffness]
  }

  /** The two writes of one turn of the output loop, at j * EMG_OUTPUT_VARS_NUMBER. */
  method WriteJointOutputs(lay: Layout, output: array<real>, j: nat, torque: real, stiffness: real)
    requires lay.Valid() && (j + 1) * lay.outStride <= output.Length
    modifies output
    ensures output[..] == WithJointOutputs(lay, old(output[..]), j, torque, stiffness)
  {
    SlotInside(j, j + 1, lay.outStride, lay.torqueInt);
    SlotInside(j, j + 1, lay.outStride, lay.stiffness);
    var actuatorOutputsIndex: nat := lay.OutSlot(j, 0);
    output[actuatorOutputsIndex + lay.torqueInt] := torque;
    output[actuatorOutputsIndex + lay.stiffness] := stiffness;
  }

  /** One turn of the output loop extends the written prefix by joint m. */
  lemma OutputsWrittenStep(lay: Layout, out: seq<real>, before: seq<real>, input: seq<real>, base: nat, m: nat, forces: nat -> real)
    requires lay.Valid() && ShiftedReadsInside(lay, base, m + 1, |input|) && (m + 1) * lay.outStride <= |out|
    requires ShiftedReadsInside(lay, base, m, |input|) && OutputsWritten(lay, out, before, input, base, m, forces)
    ensures OutputsWritten(lay,
              WithJointOutputs(lay, out, m, forces(m),
                Stiffness(forces(m), input[base + lay.InSlot(m, lay.setpoint)] - input[base + lay.InSlot(m, lay.position)])),
              before, input, base, m + 1, forces)
  {
    var next := WithJointOutputs(lay, out, m, forces(m),
                  Stiffness(forces(m), input[base + lay.InSlot(m, lay.setpoint)] - input[base + lay.InSlot(m, lay.position)]));
    EarlierOutputSlotsApart(lay, m);
    MulMonotone(m, m + 1, lay.outStride);
    ShiftedReadInside(lay, base, m, m + 1, |input|);
    forall j: nat | j < m + 1
      ensures JointOutputWritten(lay, next, input, base, j, forces(j))
    {
      OutputSlotsInside(lay, j, m + 1);
    }
    forall k: nat | k < |next| && !IsOutputSlot(lay, m + 1, k)
      ensures next[k] == before[k]
    {
    }
  }

  /** One turn of the first loop of PreProcessSample sets joint j on top of joints 0..j-1 ... */
  lemma PoseJointsStep(lay: Layout, st: EngineState, input: seq<real>, base: nat, coords: seq<nat>, j: nat)
    requires j < |coords| && ShiftedReadsInside(lay, base, j + 1, |input|)
    ensures ShiftedReadsInside(lay, base, j, |input|)
    ensures base + lay.InSlot(j, lay.position) < |input| && base + lay.InSlot(j, lay.velocity) < |input|
    ensures base + lay.InSlot(j, lay.torqueExt) < |input|
    ensures PoseJoints(lay, st, input, base, coords, j + 1)
            == SetJoint(PoseJoints(lay, st, input, base, coords, j), coords[j], j, input[base + lay.InSlot(j, lay.position)],
                        input[base + lay.InSlot(j, lay.velocity)], input[base + lay.InSlot(j, lay.torqueExt)])
  {
    ShiftedReadsPrefix(lay, base, j, j + 1, |input|);
    ShiftedReadInside(lay, base, j, j + 1, |input|);
  }

  /** ... and sets the acceleration target of joint j's coordinate on top of those of joints 0..j-1. */
  lemma AccelerationTargetsStep(lay: Layout, count: nat, input: seq<real>, base: nat, coords: seq<nat>, j: nat)
    requires j < |coords| && ShiftedReadsInside(lay, base, j + 1, |input|)
    requires forall k | 0 <= k < |coords| :: coords[k] < count
    ensures ShiftedReadsInside(lay, base, j, |input|) && base + lay.InSlot(j, lay.acceleration) < |input|
    ensures AccelerationTargets(lay, count, input, base, coords, j + 1)
            == AccelerationTargets(lay, count, input, base, coords, j)[coords[j] := input[base + lay.InSlot(j, lay.acceleration)]]
  {
    ShiftedReadsPrefix(lay, base, j, j + 1, |input|);
    ShiftedReadInside(lay, base, j, j + 1, |input|);
  }

  /** The first loop of PreProcessSample: each joint's coordinate value and speed, its actuator's
      overriding actuation, and its coordinate's acceleration target, read from the inputs at `base`. */
  method PoseEngine(lay: Layout, engine: EngineState, coordinateCount: nat, coords: seq<nat>, base: nat, input: seq<real>)
    returns (posed: EngineState, accelerations: seq<real>)
    requires lay.Valid()
    requires forall j | 0 <= j < |coords| :: coords[j] < coordinateCount
    requires ShiftedReadsInside(lay, base, |coords|, |input|)
    ensures posed == PoseJoints(lay, engine, input, base, coords, |coords|)
    ensures accelerations == AccelerationTargets(lay, coordinateCount, input, base, coords, |coords|)
  {
    posed := engine;
    accelerations := seq(coordinateCount, _ => 0.0);
    for jointIndex := 0 to |coords|
      invariant ShiftedReadsInside(lay, base, jointIndex, |input|)
      invariant posed == PoseJoints(lay, engine, input, base, coords, jointIndex)
      invariant accelerations == AccelerationTargets(lay, coordinateCount, input, base, coords, jointIndex)
    {
      ShiftedReadsPrefix(lay, base, jointIndex + 1, |coords|, |input|);
      PoseJointsStep(lay, engine, input, base, coords, jointIndex);
      AccelerationTargetsStep(lay, coordinateCount, input, base, coords, jointIndex);
      var jointAccelerationIndex := coords[jointIndex];
      posed := SetJoint(posed, jointAccelerationIndex, jointIndex, input[base + lay.InSlot(jointIndex, lay.position)],
                        input[base + lay.InSlot(jointIndex, lay.velocity)], input[base + lay.InSlot(jointIndex, lay.torqueExt)]);
      accelerations := accelerations[jointAccelerationIndex := input[base + lay.InSlot(jointIndex, lay.acceleration)]];
    }
  }

  /** The second loop of PreProcessSample, after a successful solve: torque and stiffness of
      joints 0..n-1 written into the output vector. */
  method WriteOutputs(lay: Layout, forces: nat -> real, n: nat, base: nat, input: seq<real>, output: array<real>)
    requires lay.Valid() && ShiftedReadsInside(lay, base, n, |input|) && n * lay.outStride <= output.Length
    modifies output
    ensures OutputsWritten(lay, output[..], old(output[..]), input, base, n, forces)
  {
    for jointIndex := 0 to n
      invariant ShiftedReadsInside(lay, base, jointIndex, |input|)
      invariant OutputsWritten(lay, output[..], old(output[..]), input, base, jointIndex, forces)
    {
      ShiftedReadsPrefix(lay, base, jointIndex + 1, n, |input|);
      ShiftedReadInside(lay, base, jointIndex, jointIndex + 1, |input|);
      MulMonotone(jointIndex + 1, n, lay.outStride);
      ghost var current := output[..];
      var positionError := input[base + lay.InSlot(jointIndex, lay.setpoint)] - input[base + lay.InSlot(jointIndex, lay.position)];
      WriteJointOutputs(lay, output, jointIndex, forces(jointIndex), Stiffness(forces(jointIndex), positionError));
      OutputsWrittenStep(lay, current, old(output[..]), input, base, jointIndex, forces);
    }
  }

  /** PreProcessSample, with the controller's state passed explicitly: `coords` are the coordinate
      indexes of the joints (accelerationIndexesList), `base` the number of EMG inputs. Returns the
      posed engine state and the acceleration targets it solved for. When the solve throws, the
      output vector is left as it was. */
  method PreProcessSample(lay: Layout, solve: InverseDynamics, engine: EngineState, coordinateCount: nat,
                          coords: seq<nat>, base: nat, input: seq<real>, output: array<real>)
    returns (posed: EngineState, accelerations: seq<real>)
    requires lay.Valid()
    requires forall j | 0 <= j < |coords| :: coords[j] < coordinateCount
    requires ShiftedReadsInside(lay, base, |coords|, |input|)
    requires |coords| * lay.outStride <= output.Length
    modifies output
    ensures posed == PoseJoints(lay, engine, input, base, coords, |coords|)
    ensures accelerations == AccelerationTargets(lay, coordinateCount, input, base, coords, |coords|)
    ensures solve(posed, accelerations).None? ==> output[..] == old(output[..])
    ensures solve(posed, accelerations).Some? ==>
              OutputsWritten(lay, output[..], old(output[..]), input, base, |coords|, solve(posed, accelerations).value)
  {
    posed, accelerations := PoseEngine(lay, engine, coordinateCount, coords, base, input);
    var solved := solve(posed, accelerations);
    if solved.Some? {
      WriteOutputs(lay, solved.value, |coords|, base, input, output);
    }
  }

  /** When the solve succeeds, the entries of every joint hold its torque and stiffness. */
  ghost predicate SolvedOutputsWritten(lay: Layout, outputs: seq<real>, inputs: seq<real>, base: nat, n: nat,
                                       solved: Option<nat -> real>)
  {
    solved.Some? ==> forall j: nat | j < n :: JointOutputWritten(lay, outputs, inputs, base, j, solved.value(j))
  }

  /** The sample handling both OpenSim controllers run at the start of RunControlStep, from the
      engine state `st` and the measures of the joints driving coordinates `coords`: the packed
      inputs, the engine posed from them after its time is reset to 0.0, and outputs whose joint
      entries hold the inverse-dynamics torque and stiffness outside OPERATION when the solve
      succeeds, and which are the processor's outputs in OPERATION. */
  ghost predicate SampleAcquired(lay: Layout, env: OsimEnvironment, phase: Phase, parameters: Option<seq<real>>,
                                 emg: seq<real>, count: nat, coords: seq<nat>, st: EngineState,
                                 measures: seq<RobotVariables>, inputs: seq<real>, outputs: seq<real>, posed: EngineState)
    requires lay.Valid() && |measures| == |coords| && forall j | 0 <= j < |coords| :: coords[j] < count
    requires ShiftedReadsInside(lay, |emg|, |measures|, |measures| * lay.inStride)
  {
    && InputsPacked(lay, measures, inputs)
    && |outputs| == |measures| * lay.outStride
    && posed == PoseJoints(lay, st.(time := 0.0), inputs, |emg|, coords, |measures|)
    && (phase != Operation ==>
          SolvedOutputsWritten(lay, outputs, inputs, |emg|, |measures|,
                               env.inverseDynamics(posed, AccelerationTargets(lay, count, inputs, |emg|, coords, |measures|))))
    && (phase == Operation ==> outputs == ProcessorOutputs(env, parameters, emg, inputs, |measures| * lay.outStride))
  }

  // ---------------------------------------------------------------------------------------
  // What the pose means
  // ---------------------------------------------------------------------------------------

  /** When the joints drive distinct coordinates, the posed state holds exactly joint j's inputs:
      its coordinate's value and speed and its actuator's overriding actuation ... */
  lemma {:induction false} PoseHoldsJointInputs(lay: Layout, st: EngineState, input: seq<real>, base: nat,
                                                coords: seq<nat>, n: nat, j: nat)
    requires n <= |coords| && ShiftedReadsInside(lay, base, n, |input|)
    requires forall i, k | 0 <= i < k < n :: coords[i] != coords[k]
    requires j < n
    ensures base + lay.InSlot(j, lay.position) < |input| && base + lay.InSlot(j, lay.velocity) < |input|
    ensures base + lay.InSlot(j, lay.torqueExt) < |input|
    ensures var p := PoseJoints(lay, st, input, base, coords, n);
            && coords[j] in p.values && p.values[coords[j]] == input[base + lay.InSlot(j, lay.position)]
            && coords[j] in p.speeds && p.speeds[coords[j]] == input[base + lay.InSlot(j, lay.velocity)]
            && j in p.actuation && p.actuation[j] == input[base + lay.InSlot(j, lay.torqueExt)]
    decreases n
  {
    ShiftedReadInside(lay, base, j, n, |input|);
    ShiftedReadsPrefix(lay, base, n - 1, n, |input|);
    if j < n - 1 {
      PoseHoldsJointInputs(lay, st, input, base, coords, n - 1, j);
    }
  }

  /** ... and joint j's input acceleration is the acceleration target of its coordinate. */
  lemma {:induction false} TargetsHoldJointInputs(lay: Layout, count: nat, input: seq<real>, base: nat,
                                                  coords: seq<nat>, n: nat, j: nat)
    requires n <= |coords| && ShiftedReadsInside(lay, base, n, |input|)
    requires forall i | 0 <= i < |coords| :: coords[i] < count
    requires forall i, k | 0 <= i < k < n :: coords[i] != coords[k]
    requires j < n
    ensures base + lay.InSlot(j, lay.acceleration) < |input|
    ensures AccelerationTargets(lay, count, input, base, coords, n)[coords[j]] == input[base + lay.InSlot(j, lay.acceleration)]
    decreases n
  {
    ShiftedReadInside(lay, base, j, n, |input|);
    ShiftedReadsPrefix(lay, base, n - 1, n, |input|);
    if j < n - 1 {
      TargetsHoldJointInputs(lay, count, input, base, coords, n - 1, j);
    }
  }

  /** A coordinate that no joint drives gets acceleration target zero. */
  lemma {:induction false} UndrivenCoordinatesStill(lay: Layout, count: nat, input: seq<real>, base: nat,
                                                    coords: seq<nat>, n: nat, c: nat)
    requires n <= |coords| && ShiftedReadsInside(lay, base, n, |input|)
    requires forall i | 0 <= i < |coords| :: coords[i] < count
    requires c < count && forall i | 0 <= i < n :: coords[i] != c
    ensures AccelerationTargets(lay, count, input, base, coords, n)[c] == 0.0
    decreases n
  {
    if n > 0 {
      ShiftedReadsPrefix(lay, base, n - 1, n, |input|);
      UndrivenCoordinatesStill(lay, count, input, base, coords, n - 1, c);
    }
  }
}
