/** Types and facts shared by the three controller variants: the control phases, the joint
    records exchanged with the control loop, the packed sample layout, the actuator records the
    controllers classify at start-up, and the stiffness guard. */
module ControlCommon {

  datatype Option<T> = None | Some(value: T)

  /** The control phases of enum RobotState. */
  datatype Phase = Passive | Offset | Calibration | Preprocessing | Operation

  /** The fields of one RobotVariables record that the controllers read or write. */
  datatype RobotVariables = RobotVariables(position: real, velocity: real, acceleration: real, force: real, stiffness: real)

  /** What SetControlState hands to the L-BFGS-B optimizer before calling optimize. */
  datatype OptimizerSettings = OptimizerSettings(tolerance: real, numericalGradient: bool, maxIterations: nat, history: nat)

  /** Convergence tolerance 0.05, numerical gradient, 1000 iterations, history depth 500. */
  const FitSettings := OptimizerSettings(0.05, true, 1000, 500)

  /** The sample capacity every variant passes to the constructor of its EMG processor. */
  const SampleCapacity: nat := 1000

  /** One call of StoreSamples: the EMG inputs, the packed joint inputs and the packed outputs. */
  datatype Sample = Sample(emg: seq<real>, inputs: seq<real>, outputs: seq<real>)

  /** The optimizer run over the EMG processor's objective: from the settings, the samples handed
      to the store since its last reset, and the starting vector, it yields the fitted vector,
      which has the length of the starting vector (a SimTK vector optimized in place). */
  type Fitter = f: (OptimizerSettings, seq<Sample>, seq<real>) -> seq<real>
    | forall o, s, v :: |f(o, s, v)| == |v|
    witness (o: OptimizerSettings, s: seq<Sample>, v: seq<real>) => v

  /** The part of the Dynamics Engine's SimTK::State that the controllers write: the time, the
      value and speed of each coordinate (by coordinate index) and the overriding actuation of
      each controlled actuator (by its index in the controller's actuator list). */
  datatype EngineState = EngineState(time: real, values: map<nat, real>, speeds: map<nat, real>, actuation: map<nat, real>)

  /** The only phase change that fits the parameters and switches the forces back on. */
  predicate IsFitEdge(previous: Phase, requested: Phase) {
    previous == Preprocessing && requested == Operation
  }

  /** The joint measures, axis measures, joint set points and axis set points RunControlStep is
      handed are four different lists. */
  predicate SeparateLists(jointMeasures: array<RobotVariables>, axisMeasures: array<RobotVariables>,
                          jointSetpoints: array<RobotVariables>, axisSetpoints: array<RobotVariables>)
  {
    && jointMeasures != axisMeasures && jointMeasures != jointSetpoints && jointMeasures != axisSetpoints
    && axisMeasures != jointSetpoints && axisMeasures != axisSetpoints && jointSetpoints != axisSetpoints
  }

  // ---------------------------------------------------------------------------------------
  // Packed per-joint vectors
  // ---------------------------------------------------------------------------------------

  /** Field offsets and strides of the packed joint vectors (EMG_POSITION, ..., EMG_INPUT_VARS_NUMBER,
      EMG_TORQUE_INT, EMG_STIFFNESS, EMG_OUTPUT_VARS_NUMBER). Their values live in a header that is not
      part of this model; everything here holds for any layout whose offsets are distinct and
      smaller than their stride. */
  datatype Layout = Layout(inStride: nat, position: nat, velocity: nat, acceleration: nat, setpoint: nat, torqueExt: nat,
                           outStride: nat, torqueInt: nat, stiffness: nat)
  {
    ghost predicate Valid() {
      && position < inStride && velocity < inStride && acceleration < inStride
      && setpoint < inStride && torqueExt < inStride
      && position != velocity && position != acceleration && position != setpoint && position != torqueExt
      && velocity != acceleration && velocity != setpoint && velocity != torqueExt
      && acceleration != setpoint && acceleration != torqueExt
      && setpoint != torqueExt
      && torqueInt < outStride && stiffness < outStride && torqueInt != stiffness
    }

    /** Index of input field f of joint j. */
    function InSlot(j: nat, f: nat): nat {
      j * inStride + f
    }

    /** Index of output field f of joint j. */
    function OutSlot(j: nat, f: nat): nat {
      j * outStride + f
    }

    /** Length of the packed input vector of n joints. */
    function InSize(n: nat): nat {
      n * inStride
    }

    /** Length of the packed output vector of n joints. */
    function OutSize(n: nat): nat {
      n * outStride
    }

    /** The largest input field offset. */
    function MaxInputField(): (m: nat)
      ensures position <= m && velocity <= m && acceleration <= m && setpoint <= m && torqueExt <= m
      ensures m == position || m == velocity || m == acceleration || m == setpoint || m == torqueExt
    {
      Max(Max(Max(position, velocity), Max(acceleration, setpoint)), torqueExt)
    }
  }

  /** The only layouts a controller is built with. */
  type ValidLayout = lay: Layout | lay.Valid()
    witness Layout(5, 0, 1, 2, 3, 4, 2, 0, 1)

  function Max(a: nat, b: nat): nat {
    if a < b then b else a
  }

  /** A field slot of joint j lies inside a vector of n joints. */
  lemma SlotInside(j: nat, n: nat, stride: nat, f: nat)
    requires j < n && f < stride
    ensures j * stride + f < n * stride
  {
    MulMonotone(j + 1, n, stride);
  }

  /** The slots of two different joints never coincide. */
  lemma SlotsApart(j: nat, k: nat, stride: nat, f: nat, g: nat)
    requires j != k && f < stride && g < stride
    ensures j * stride + f != k * stride + g
  {
    if j < k {
      MulMonotone(j + 1, k, stride);
    } else {
      MulMonotone(k + 1, j, stride);
    }
  }

  lemma MulMonotone(a: nat, b: nat, c: nat)
    requires a <= b
    ensures a * c <= b * c
  {
    assert b * c == a * c + (b - a) * c;
  }

  /** Field f of joint j, read at offset `base` (the EMG prefix PreProcessSample assumes), lies
      inside the vector whenever the last joint's largest field does. */
  lemma ShiftedSlotInside(lay: Layout, base: nat, j: nat, n: nat, f: nat, len: nat)
    requires j < n && f <= lay.MaxInputField()
    requires base + lay.InSlot(n - 1, lay.MaxInputField()) < len
    ensures base + lay.InSlot(j, f) < len
  {
    MulMonotone(j, n - 1, lay.inStride);
  }

  /** With a layout that uses the last slot of its stride, the shifted reads of a non-empty joint
      vector of n * inStride entries stay inside it only when there is no EMG prefix at all. */
  lemma {:induction false} ShiftedReadsNeedNoPrefix(lay: Layout, base: nat, n: nat)
    requires lay.Valid() && n > 0 && lay.MaxInputField() == lay.inStride - 1
    ensures base + lay.InSlot(n - 1, lay.MaxInputField()) < n * lay.inStride <==> base == 0
  {
    assert n * lay.inStride == (n - 1) * lay.inStride + lay.inStride;
  }

  // ---------------------------------------------------------------------------------------
  // Stiffness guard
  // ---------------------------------------------------------------------------------------

  const StiffnessEpsilon: real := 1.0e-6
  const SentinelStiffness: real := 100.0

  function Abs(x: real): real {
    if x < 0.0 then -x else x
  }

  /** Stiffness of a joint from its inverse-dynamics torque and its position error: the torque
      per unit of error when the error is larger than 1e-6 in magnitude, and 100.0 otherwise. */
  function Stiffness(torque: real, positionError: real): (k: real)
    ensures Abs(positionError) > StiffnessEpsilon ==> k * positionError == torque
    ensures Abs(positionError) <= StiffnessEpsilon ==> k == SentinelStiffness
  {
    if Abs(positionError) > StiffnessEpsilon then torque / positionError else SentinelStiffness
  }

  // ---------------------------------------------------------------------------------------
  // Actuators
  // ---------------------------------------------------------------------------------------

  /** One entry of the model's actuator set: its name, whether the muscle set contains that name,
      whether it is a CoordinateActuator, and the name and index (in the coordinate set) of the
      coordinate it drives. */
  datatype Actuator = Actuator(name: string, isMuscle: bool, isCoordinateActuator: bool,
                               coordinateName: string, coordinateIndex: nat)

  /** The actuators a controller takes over as joints: coordinate actuators that are not muscles. */
  predicate IsJointActuator(a: Actuator) {
    !a.isMuscle && a.isCoordinateActuator
  }

  /** The joint actuators of `s`, in their order in `s`. */
  function JointActuators(s: seq<Actuator>): seq<Actuator>
    decreases |s|
  {
    if s == [] then []
    else JointActuators(s[..|s| - 1]) + (if IsJointActuator(s[|s| - 1]) then [s[|s| - 1]] else [])
  }

  /** Exactly the joint actuators are kept, and no more entries than there were actuators. */
  lemma {:induction false} JointActuatorsExact(s: seq<Actuator>)
    ensures |JointActuators(s)| <= |s|
    ensures forall a :: a in JointActuators(s) <==> a in s && IsJointActuator(a)
    decreases |s|
  {
    if s != [] {
      var init := s[..|s| - 1];
      JointActuatorsExact(init);
      assert s == init + [s[|s| - 1]];
    }
  }

  /** Appending one more actuator extends the kept list by that actuator exactly when it is a
      joint actuator (the step a classification loop takes). */
  lemma JointActuatorsStep(s: seq<Actuator>, i: nat)
    requires i < |s|
    ensures JointActuators(s[..i + 1]) == JointActuators(s[..i]) + (if IsJointActuator(s[i]) then [s[i]] else [])
  {
    assert s[..i + 1][..i] == s[..i];
  }

  /** Classifying a prefix of the actuators yields a prefix of the classification of them all. */
  lemma {:induction false} JointActuatorsOfPrefix(s: seq<Actuator>, i: nat)
    requires i <= |s|
    ensures JointActuators(s[..i]) <= JointActuators(s)
    decreases |s| - i
  {
    if i < |s| {
      JointActuatorsStep(s, i);
      JointActuatorsOfPrefix(s, i + 1);
      assert s[..|s|] == s;
    } else {
      assert s[..i] == s;
    }
  }

  /** The muscles among the actuators, in order. */
  function Muscles(s: seq<Actuator>): seq<Actuator>
    decreases |s|
  {
    if s == [] then []
    else Muscles(s[..|s| - 1]) + (if s[|s| - 1].isMuscle then [s[|s| - 1]] else [])
  }

  lemma MusclesStep(s: seq<Actuator>, i: nat)
    requires i < |s|
    ensures Muscles(s[..i + 1]) == Muscles(s[..i]) + (if s[i].isMuscle then [s[i]] else [])
  {
    assert s[..i + 1][..i] == s[..i];
  }

  /** Exactly the muscles are listed, and no more entries than there were actuators. */
  lemma {:induction false} MusclesExact(s: seq<Actuator>)
    ensures |Muscles(s)| <= |s|
    ensures forall a :: a in Muscles(s) <==> a in s && a.isMuscle
    decreases |s|
  {
    if s != [] {
      var init := s[..|s| - 1];
      MusclesExact(init);
      assert s == init + [s[|s| - 1]];
    }
  }

  /** Every actuator is either a muscle or a joint actuator when all non-muscles are coordinate
      actuators, so the two lists share out the actuator set. */
  lemma {:induction false} MusclesAndJointsPartition(s: seq<Actuator>)
    requires forall a :: a in s && !a.isMuscle ==> a.isCoordinateActuator
    ensures |Muscles(s)| + |JointActuators(s)| == |s|
    decreases |s|
  {
    if s != [] {
      MusclesAndJointsPartition(s[..|s| - 1]);
    }
  }

  /** Index of the first entry equal to `x`, as OpenSim's Set lookup by name finds it. */
  function IndexOf(s: seq<string>, x: string): (r: Option<nat>)
    ensures r.Some? ==> r.value < |s| && s[r.value] == x && forall k :: 0 <= k < r.value ==> s[k] != x
    ensures r.None? <==> x !in s
    decreases |s|
  {
    if s == [] then None
    else if s[0] == x then Some(0)
    else match IndexOf(s[1..], x)
      case None => None
      case Some(i) => Some(i + 1)
  }
}
