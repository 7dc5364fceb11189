/** The legacy OpenSim controller of open_sim_model-legacy.cpp: the ControlData record as a class,
    InitController's split of the actuators into EMG sensors and joints, SetControlState with the
    sensor phase, RunControlStep, and the C entry points, which all accept a NULL handle. */
module LegacyModel {
  import opened ControlCommon
  import opened Preprocess
  import opened PhaseMachine
  import opened OsimModel
  import opened LegacyStep

  // ---------------------------------------------------------------------------------------
  // EMG sensors
  // ---------------------------------------------------------------------------------------

  /** SignalProcessingPhase: the phase an EMG sensor is told to process its signal in. */
  datatype SensorPhase = SignalOffset | SignalCalibration | SignalMeasurement

  /** One EMG sensor: the configuration it was loaded from and the phase last set on it (None
      until SetControlState first sets one). */
  datatype EmgSensor = EmgSensor(configuration: string, phase: Option<SensorPhase>)

  /** Where a muscle's sensor configuration is looked up: "sensors/emg/" followed by its name. */
  const SensorConfigurationDirectory: string := "sensors/emg/"

  function SensorFor(muscle: Actuator): EmgSensor {
    EmgSensor(SensorConfigurationDirectory + muscle.name, None)
  }

  /** One sensor per muscle, in order. */
  function SensorsFor(muscles: seq<Actuator>): seq<EmgSensor> {
    seq(|muscles|, i requires 0 <= i < |muscles| => SensorFor(muscles[i]))
  }

  /** The phase SetControlState hands to every sensor for a requested control phase. */
  function SensorPhaseFor(requested: Phase): SensorPhase {
    if requested == Offset then SignalOffset
    else if requested == Calibration then SignalCalibration
    else SignalMeasurement
  }

  /** OFFSET and CALIBRATION each pick their own sensor phase; every other control phase picks
      MEASUREMENT. */
  lemma SensorPhaseOnlyForCalibrationPhases(requested: Phase)
    ensures SensorPhaseFor(requested) == SignalOffset <==> requested == Offset
    ensures SensorPhaseFor(requested) == SignalCalibration <==> requested == Calibration
    ensures SensorPhaseFor(requested) == SignalMeasurement <==> requested !in {Offset, Calibration}
  {
  }

  /** Every sensor told the same phase. */
  function WithPhase(sensors: seq<EmgSensor>, p: SensorPhase): seq<EmgSensor> {
    seq(|sensors|, i requires 0 <= i < |sensors| => sensors[i].(phase := Some(p)))
  }

  // ---------------------------------------------------------------------------------------
  // Actuator split
  // ---------------------------------------------------------------------------------------

  /** Every actuator that is not a muscle is a coordinate actuator: the code casts each of them to
      CoordinateActuator and follows the result without a check. */
  predicate NonMusclesDriveCoordinates(actuators: seq<Actuator>) {
    forall a | a in actuators && !a.isMuscle :: a.isCoordinateActuator
  }

  /** The names of the coordinates the kept actuators drive. */
  function CoordinateNames(kept: seq<Actuator>): seq<string> {
    seq(|kept|, j requires 0 <= j < |kept| => kept[j].coordinateName)
  }

  /** The actuator loop of InitController: a muscle adds a sensor loaded from its configuration;
      every other actuator is kept, and adds its coordinate's name to the joint and the axis
      names and a `true` changed flag. */
  method SplitActuators(actuators: seq<Actuator>)
    returns (sensors: seq<EmgSensor>, kept: seq<Actuator>, jointNames: seq<string>, axisNames: seq<string>, changed: seq<bool>)
    requires NonMusclesDriveCoordinates(actuators)
    ensures sensors == SensorsFor(Muscles(actuators))
    ensures kept == JointActuators(actuators)
    ensures jointNames == CoordinateNames(kept) && axisNames == jointNames
    ensures changed == seq(|kept|, _ => true)
  {
    sensors, kept, jointNames, axisNames, changed := [], [], [], [], [];
    for actuatorIndex := 0 to |actuators|
      invariant sensors == SensorsFor(Muscles(actuators[..actuatorIndex]))
      invariant kept == JointActuators(actuators[..actuatorIndex])
      invariant jointNames == CoordinateNames(kept) && axisNames == jointNames
      invariant changed == seq(|kept|, _ => true)
    {
      MusclesStep(actuators, actuatorIndex);
      JointActuatorsStep(actuators, actuatorIndex);
      var actuator := actuators[actuatorIndex];
      if actuator.isMuscle {
        sensors := sensors + [SensorFor(actuator)];
      } else {
        kept := kept + [actuator];
        jointNames := jointNames + [actuator.coordinateName];
        axisNames := axisNames + [actuator.coordinateName];
        changed := changed + [true];
      }
    }
    assert actuators[..|actuators|] == actuators;
  }

  /** The split shares out the actuators: one sensor per muscle, loaded from that muscle's
      configuration, and one joint per remaining actuator. */
  lemma SplitSharesActuators(actuators: seq<Actuator>)
    requires NonMusclesDriveCoordinates(actuators)
    ensures |SensorsFor(Muscles(actuators))| + |JointActuators(actuators)| == |actuators|
    ensures forall a | a in actuators && a.isMuscle :: SensorFor(a) in SensorsFor(Muscles(actuators))
    ensures forall a | a in actuators && !a.isMuscle :: a in JointActuators(actuators)
  {
    MusclesAndJointsPartition(actuators);
    MusclesExact(actuators);
    JointActuatorsExact(actuators);
    var ms := Muscles(actuators);
    forall a | a in actuators && a.isMuscle
      ensures SensorFor(a) in SensorsFor(ms)
    {
      var i :| 0 <= i < |ms| && ms[i] == a;
      assert SensorsFor(ms)[i] == SensorFor(a);
    }
  }

  // ---------------------------------------------------------------------------------------
  // Phase machine
  // ---------------------------------------------------------------------------------------

  /** Parameters of the EMG processor per muscle, and the bounds set on each of them. */
  const ParametersPerMuscle: nat := 5
  const LowerParameterLimit: real := 0.8
  const UpperParameterLimit: real := 1.2

  /** The vector the optimizer starts from: 5 x muscles ones. */
  function StartingControls(muscleCount: nat): seq<real> {
    seq(ParametersPerMuscle * muscleCount, _ => 1.0)
  }

  /** The part of the record SetControlState acts on: the phase, whether each force applies, the
      samples in the EMG processor's store, the sensors, and the vector the last optimizer run
      left in its local variable (the code discards it: this variant never sets parameters). */
  datatype LegacyMachine = LegacyMachine(phase: Phase, forcesOn: seq<bool>, samples: seq<Sample>,
                                         sensors: seq<EmgSensor>, lastRun: Option<seq<real>>)

  /** The requests that reach the EMG processor: PREPROCESSING resets its store, and the
      PREPROCESSING-to-OPERATION change runs the optimizer over it. */
  predicate TouchesProcessor(previous: Phase, requested: Phase) {
    requested == Preprocessing || IsFitEdge(previous, requested)
  }

  /** SetControlState: every force off; PREPROCESSING resets the store; the
      PREPROCESSING-to-OPERATION change runs the optimizer from StartingControls and switches every
      force back on; every sensor gets the sensor phase of the request; the request becomes the
      phase. */
  function LegacyTransition(s: LegacyMachine, requested: Phase, fit: Fitter, muscleCount: nat): (r: LegacyMachine)
    ensures r.phase == requested
    ensures |r.forcesOn| == |s.forcesOn| && |r.sensors| == |s.sensors|
    ensures requested == Preprocessing ==> r.samples == []
    ensures requested != Preprocessing ==> r.samples == s.samples
  {
    var edge := IsFitEdge(s.phase, requested);
    LegacyMachine(requested, seq(|s.forcesOn|, _ => edge),
                  if requested == Preprocessing then [] else s.samples,
                  WithPhase(s.sensors, SensorPhaseFor(requested)),
                  if edge then Some(fit(FitSettings, s.samples, StartingControls(muscleCount))) else s.lastRun)
  }

  /** The legacy phase machine is the one of the other two controllers, started from 5 x muscles
      ones, with the discarded optimizer result in the place of the parameters those controllers
      set. */
  lemma LegacyAgreesWithTransition(s: LegacyMachine, requested: Phase, fit: Fitter, muscleCount: nat)
    ensures var r := LegacyTransition(s, requested, fit, muscleCount);
            Transition(MachineState(s.phase, s.forcesOn, s.samples, s.lastRun), requested, fit, StartingControls(muscleCount))
            == MachineState(r.phase, r.forcesOn, r.samples, r.lastRun)
  {
  }

  /** After any request every sensor carries the sensor phase of that request, and keeps its
      configuration. */
  lemma EverySensorInPhase(s: LegacyMachine, requested: Phase, fit: Fitter, muscleCount: nat)
    ensures var r := LegacyTransition(s, requested, fit, muscleCount);
            && |r.sensors| == |s.sensors|
            && forall i | 0 <= i < |r.sensors| ::
                 r.sensors[i].configuration == s.sensors[i].configuration
                 && r.sensors[i].phase == Some(SensorPhaseFor(requested))
  {
  }

  /** Forces end up on exactly on the PREPROCESSING-to-OPERATION change, where the optimizer runs
      over the stored samples from 5 x muscles ones and yields that many values; any other request
      leaves every force off and runs nothing. */
  lemma ForcesOnlyAfterFit(s: LegacyMachine, requested: Phase, fit: Fitter, muscleCount: nat)
    ensures var r := LegacyTransition(s, requested, fit, muscleCount);
            && r.phase == requested && |r.forcesOn| == |s.forcesOn|
            && (forall i | 0 <= i < |r.forcesOn| :: r.forcesOn[i] == IsFitEdge(s.phase, requested))
            && (IsFitEdge(s.phase, requested) ==>
                  r.lastRun == Some(fit(FitSettings, s.samples, StartingControls(muscleCount)))
                  && |r.lastRun.value| == ParametersPerMuscle * muscleCount)
            && (!IsFitEdge(s.phase, requested) ==> r.lastRun == s.lastRun)
  {
  }

  /** Entering PREPROCESSING empties the store, and asking for it twice in a row leaves the same
      state as asking once. */
  lemma LegacyPreprocessingResets(s: LegacyMachine, fit: Fitter, muscleCount: nat)
    ensures LegacyTransition(s, Preprocessing, fit, muscleCount).samples == []
    ensures var once := LegacyTransition(s, Preprocessing, fit, muscleCount);
            LegacyTransition(once, Preprocessing, fit, muscleCount) == once
  {
    var once := LegacyTransition(s, Preprocessing, fit, muscleCount);
    var twice := LegacyTransition(once, Preprocessing, fit, muscleCount);
    assert twice.sensors == once.sensors;
  }

  /** The PASSIVE request InitController makes before the EMG processor exists does not reach the
      processor, and its result does not depend on the phase the fresh record holds. */
  lemma PassiveIgnoresProcessorAndPhase(s: LegacyMachine, other: Phase, fit: Fitter, muscleCount: nat)
    ensures !TouchesProcessor(s.phase, Passive)
    ensures LegacyTransition(s.(phase := other), Passive, fit, muscleCount) == LegacyTransition(s, Passive, fit, muscleCount)
  {
  }

  // ---------------------------------------------------------------------------------------
  // The controller record
  // ---------------------------------------------------------------------------------------

  class LegacyController {
    const strides: ValidStrides
    const env: LegacyEnvironment

    /** InitController has finished: the model, the solver, the integrator and the manager exist. */
    var ready: bool
    /** emgProcessor points at a processor. */
    var processorExists: bool
    var phase: Phase
    /** appliesForce of each force in the model's force set. */
    var forcesOn: seq<bool>
    var engine: EngineState
    /** The size of the model's muscle set. */
    var muscleCount: nat
    var actuators: seq<Actuator>
    var jointNames: seq<string>
    var axisNames: seq<string>
    var dofsChanged: seq<bool>
    var sensors: seq<EmgSensor>
    /** What the EMG processor was created with: its parameter count, its sample capacity and the
        bounds set on its parameters. */
    var parameterCount: nat
    var sampleCapacity: nat
    var lowerLimits: seq<real>
    var upperLimits: seq<real>
    /** The samples handed to the EMG processor's store since its last reset. */
    var samples: seq<Sample>
    /** What the last optimizer run left in its local vector. */
    ghost var lastRun: Option<seq<real>>

    /** The joint names, the axis names and the changed flags have one entry per joint. */
    ghost predicate Valid()
      reads this`jointNames, this`axisNames, this`dofsChanged
    {
      |axisNames| == |jointNames| && |dofsChanged| == |jointNames|
    }

    ghost function Machine(): LegacyMachine
      reads this`phase, this`forcesOn, this`samples, this`sensors, this`lastRun
    {
      LegacyMachine(phase, forcesOn, samples, sensors, lastRun)
    }

    /** The record InitController returns for model d. */
    ghost predicate Started(d: ModelDescription)
      reads this
    {
      && ready && processorExists && engine == d.initialState.(time := 0.0)
      && muscleCount == |Muscles(d.actuators)|
      && actuators == JointActuators(d.actuators) && jointNames == CoordinateNames(actuators) && axisNames == jointNames
      && dofsChanged == seq(|actuators|, _ => true)
      && sensors == WithPhase(SensorsFor(Muscles(d.actuators)), SignalMeasurement)
      && phase == Passive && forcesOn == seq(|d.forcesApply|, _ => false) && samples == [] && lastRun == None
      && parameterCount == ParametersPerMuscle * muscleCount && sampleCapacity == SampleCapacity
      && lowerLimits == seq(parameterCount, _ => LowerParameterLimit)
      && upperLimits == seq(parameterCount, _ => UpperParameterLimit)
    }

    /** `new ControlData`. The phase of the fresh record is not initialised by the code; the model
        starts it at PASSIVE, which the first request overwrites without reading it. */
    constructor (strides: ValidStrides, env: LegacyEnvironment)
      ensures Valid() && !ready && !processorExists && phase == Passive && samples == [] && lastRun == None
      ensures sensors == [] && actuators == [] && this.strides == strides && this.env == env
    {
      this.strides := strides;
      this.env := env;
      ready := false;
      processorExists := false;
      phase := Passive;
      forcesOn := [];
      engine := EngineState(0.0, map[], map[], map[]);
      muscleCount := 0;
      actuators := [];
      jointNames := [];
      axisNames := [];
      dofsChanged := [];
      sensors := [];
      parameterCount := 0;
      sampleCapacity := 0;
      lowerLimits := [];
      upperLimits := [];
      samples := [];
      lastRun := None;
    }

    /** The loop over the force set that disables or enables every force. */
    method SwitchAllForces(on: bool)
      modifies this`forcesOn
      ensures forcesOn == seq(|old(forcesOn)|, _ => on)
    {
      for forceIndex := 0 to |forcesOn|
        invariant |forcesOn| == |old(forcesOn)|
        invariant forall k | 0 <= k < forceIndex :: forcesOn[k] == on
      {
        forcesOn := forcesOn[forceIndex := on];
      }
    }

    /** The loop that sets the sensor phase on every EMG sensor. */
    method SetSensorPhases(p: SensorPhase)
      modifies this`sensors
      ensures sensors == WithPhase(old(sensors), p)
    {
      for muscleIndex := 0 to |sensors|
        invariant |sensors| == |old(sensors)|
        invariant forall i | 0 <= i < muscleIndex :: sensors[i] == old(sensors[i]).(phase := Some(p))
        invariant forall i | muscleIndex <= i < |sensors| :: sensors[i] == old(sensors[i])
      {
        sensors := sensors[muscleIndex := sensors[muscleIndex].(phase := Some(p))];
      }
    }

    /** The body of SetControlState after the NULL guard. A request that reaches the EMG processor
        needs the processor to exist. */
    method ApplyControlState(newControlState: Phase)
      requires processorExists || !TouchesProcessor(phase, newControlState)
      modifies this`phase, this`forcesOn, this`samples, this`sensors, this`lastRun
      ensures Machine() == LegacyTransition(old(Machine()), newControlState, env.fit, muscleCount)
    {
      var signalProcessingPhase := SignalMeasurement;
      SwitchAllForces(false);
      if newControlState == Offset {
        signalProcessingPhase := SignalOffset;
      } else if newControlState == Calibration {
        signalProcessingPhase := SignalCalibration;
      } else if newControlState == Preprocessing {
        assert processorExists;
        samples := [];
      } else if newControlState == Operation {
        if phase == Preprocessing {
          assert processorExists;
          var controls := StartingControls(muscleCount);
          lastRun := Some(env.fit(FitSettings, samples, controls));
          SwitchAllForces(true);
        }
      }
      SetSensorPhases(signalProcessingPhase);
      phase := newControlState;
    }

    /** The body of EndController after the NULL guard: the name lists and the changed flags are
        cleared and every sensor is ended and dropped; the model and the solvers are deleted. */
    method Release()
      modifies this`ready, this`jointNames, this`axisNames, this`dofsChanged, this`sensors
      ensures Valid() && !ready && jointNames == [] && axisNames == [] && dofsChanged == [] && sensors == []
    {
      ready := false;
      jointNames := [];
      axisNames := [];
      dofsChanged := [];
      sensors := [];
    }

    /** The part of InitController before the PASSIVE request: the state copied from initSystem,
        the forces, the muscle count and the actuator loop. */
    method LoadModel(d: ModelDescription)
      requires NonMusclesDriveCoordinates(d.actuators)
      modifies this`engine, this`forcesOn, this`muscleCount, this`sensors, this`actuators
      modifies this`jointNames, this`axisNames, this`dofsChanged
      ensures Valid() && engine == d.initialState && forcesOn == d.forcesApply && muscleCount == |Muscles(d.actuators)|
      ensures sensors == SensorsFor(Muscles(d.actuators)) && actuators == JointActuators(d.actuators)
      ensures jointNames == CoordinateNames(actuators) && axisNames == jointNames
      ensures dofsChanged == seq(|actuators|, _ => true)
    {
      engine := d.initialState;
      forcesOn := d.forcesApply;
      muscleCount := |Muscles(d.actuators)|;
      var newSensors, kept, names, axes, changed := SplitActuators(d.actuators);
      sensors, actuators, jointNames, axisNames, dofsChanged := newSensors, kept, names, axes, changed;
    }

    /** The part of InitController after the PASSIVE request: the EMG processor with 5 x muscles
        parameters, capacity 1000 and the bounds 0.8 and 1.2 on every parameter, the state's time
        set to 0, and the solver, integrator and manager. */
    method StartProcessor()
      modifies this`processorExists, this`parameterCount, this`sampleCapacity, this`lowerLimits
      modifies this`upperLimits, this`samples, this`engine, this`ready
      ensures processorExists && ready && parameterCount == ParametersPerMuscle * muscleCount
      ensures sampleCapacity == SampleCapacity && samples == [] && engine == old(engine).(time := 0.0)
      ensures lowerLimits == seq(parameterCount, _ => LowerParameterLimit)
      ensures upperLimits == seq(parameterCount, _ => UpperParameterLimit)
    {
      processorExists := true;
      parameterCount := ParametersPerMuscle * muscleCount;
      sampleCapacity := SampleCapacity;
      samples := [];
      lowerLimits := seq(parameterCount, _ => LowerParameterLimit);
      upperLimits := seq(parameterCount, _ => UpperParameterLimit);
      engine := engine.(time := 0.0);
      ready := true;
    }

    /** The body of InitController's `try` block once the model is loaded: the actuators are
        split, the PASSIVE request is made before the EMG processor exists, and the processor is
        created. */
    method Initialise(d: ModelDescription)
      requires Valid() && !ready && !processorExists && samples == [] && lastRun == None && sensors == []
      requires NonMusclesDriveCoordinates(d.actuators)
      modifies this`engine, this`forcesOn, this`muscleCount, this`sensors, this`actuators
      modifies this`jointNames, this`axisNames, this`dofsChanged, this`phase, this`samples, this`lastRun
      modifies this`processorExists, this`parameterCount, this`sampleCapacity, this`lowerLimits
      modifies this`upperLimits, this`ready
      ensures Valid() && Started(d)
    {
      LoadModel(d);
      PassiveIgnoresProcessorAndPhase(Machine(), Passive, env.fit, muscleCount);
      ApplyControlState(Passive);
      StartProcessor();
    }

    /** The body of RunControlStep after the NULL guard, up to the dispatch: the sensor readings,
        the two joint loops around the integration and the solve, and the sample stored in
        PREPROCESSING or the force outputs recomputed in OPERATION. */
    method ProcessTick(readings: seq<real>, jointMeasures: array<RobotVariables>, jointSetpoints: array<RobotVariables>,
                       timeDelta: real)
      returns (emgInputs: seq<real>, positionInputs: seq<real>, forceOutputs: seq<real>,
               ghost written: seq<real>, ghost posed: EngineState)
      requires ready && |readings| == |sensors|
      requires |actuators| <= jointMeasures.Length && |actuators| <= jointSetpoints.Length
      modifies this`engine, this`samples
      ensures TickComputed(strides, env, phase, old(engine), actuators, jointMeasures[..|actuators|],
                           jointSetpoints[..|actuators|], readings, timeDelta, emgInputs, positionInputs,
                           written, forceOutputs, posed, engine)
      ensures samples == old(samples) + (if phase == Preprocessing then [Sample(emgInputs, positionInputs, written)] else [])
    {
      var n := |actuators|;
      emgInputs := readings;
      positionInputs := env.blank(strides.positionVariables * n);
      var pose, accelerationsList := PoseMeasuredJoints(engine, actuators, jointMeasures, n);
      posed := pose;
      assert accelerationsList == JointAccelerations(jointMeasures[..n]);
      engine := env.integrate(pose.(time := 0.0), timeDelta);
      var idForcesList := env.solve(engine, accelerationsList);
      forceOutputs := NewForceOutputs(strides, env, idForcesList, jointMeasures, jointSetpoints, n);
      written := forceOutputs;
      if phase == Preprocessing {
        samples := samples + [Sample(emgInputs, positionInputs, forceOutputs)];
      } else if phase == Operation {
        forceOutputs := env.calculateTorques(engine, emgInputs, positionInputs, forceOutputs);
      }
    }

    /** The body of RunControlStep after the NULL guard. */
    method ControlStep(readings: seq<real>, jointMeasures: array<RobotVariables>, axisMeasures: array<RobotVariables>,
                       jointSetpoints: array<RobotVariables>, axisSetpoints: array<RobotVariables>, timeDelta: real)
      returns (emgInputs: seq<real>, positionInputs: seq<real>, forceOutputs: seq<real>,
               ghost written: seq<real>, ghost posed: EngineState)
      requires ready && |readings| == |sensors|
      requires |actuators| <= jointMeasures.Length && |actuators| <= axisMeasures.Length
      requires |actuators| <= jointSetpoints.Length && |actuators| <= axisSetpoints.Length
      requires SeparateLists(jointMeasures, axisMeasures, jointSetpoints, axisSetpoints)
      modifies this`engine, this`samples, axisMeasures, jointSetpoints
      ensures TickComputed(strides, env, phase, old(engine), actuators, old(jointMeasures[..|actuators|]),
                           old(jointSetpoints[..|actuators|]), readings, timeDelta, emgInputs, positionInputs,
                           written, forceOutputs, posed, engine)
      ensures samples == old(samples) + (if phase == Preprocessing then [Sample(emgInputs, positionInputs, written)] else [])
      ensures forall j: nat | j < |actuators| ::
                AxisReported(strides, env, engine, actuators, forceOutputs, axisMeasures[j], old(axisMeasures[j]), j)
      ensures forall j | |actuators| <= j < axisMeasures.Length :: axisMeasures[j] == old(axisMeasures[j])
      ensures forall j | 0 <= j < |actuators| :: jointSetpoints[j] == CopiedSetpoint(old(jointSetpoints[j]), axisSetpoints[j])
      ensures forall j | |actuators| <= j < jointSetpoints.Length :: jointSetpoints[j] == old(jointSetpoints[j])
    {
      emgInputs, positionInputs, forceOutputs, written, posed := ProcessTick(readings, jointMeasures, jointSetpoints, timeDelta);
      ReportAxes(strides, env, engine, actuators, forceOutputs, |actuators|, axisMeasures);
      CopySetpoints(|actuators|, jointSetpoints, axisSetpoints);
    }
  }

  // ---------------------------------------------------------------------------------------
  // Entry points
  // ---------------------------------------------------------------------------------------

  /** InitController. `model` is None when any step of the try block throws: loading the .osim
      file, initSystem, or one of the processor, solver, integrator and manager constructors.
      The record is then ended and NULL returned. */
  method InitController(model: Option<ModelDescription>, strides: ValidStrides, env: LegacyEnvironment)
    returns (controller: LegacyController?)
    requires model.Some? ==> NonMusclesDriveCoordinates(model.value.actuators)
    ensures controller == null <==> model.None?
    ensures controller != null ==> fresh(controller) && controller.Valid() && controller.Started(model.value)
                                     && controller.strides == strides && controller.env == env
  {
    var newController := new LegacyController(strides, env);
    if model.None? {
      newController.Release();
      return null;
    }
    newController.Initialise(model.value);
    controller := newController;
  }

  /** EndController: nothing for a NULL handle. */
  method EndController(controller: LegacyController?)
    modifies controller
    ensures controller != null ==> && controller.Valid() && !controller.ready
                                   && controller.jointNames == [] && controller.axisNames == []
                                   && controller.dofsChanged == [] && controller.sensors == []
                                   && unchanged(controller`processorExists, controller`phase, controller`forcesOn,
                                                controller`engine, controller`actuators, controller`samples)
  {
    if controller == null {
      return;
    }
    controller.Release();
  }

  /** GetJointsNumber: 0 for a NULL handle. */
  function GetJointsNumber(controller: LegacyController?): (r: nat)
    reads controller
    ensures controller == null ==> r == 0
    ensures controller != null ==> r == |controller.jointNames|
  {
    if controller == null then 0 else |controller.jointNames|
  }

  /** GetJointNamesList: NULL for a NULL handle. */
  function GetJointNamesList(controller: LegacyController?): (r: Option<seq<string>>)
    reads controller
    ensures r.None? <==> controller == null
    ensures r.Some? ==> |r.value| == GetJointsNumber(controller)
  {
    if controller == null then None else Some(controller.jointNames)
  }

  /** GetJointsChangedList: NULL for a NULL handle. */
  function GetJointsChangedList(controller: LegacyController?): (r: Option<seq<bool>>)
    reads controller
    ensures r.None? <==> controller == null
    ensures r.Some? && controller.Valid() ==> |r.value| == GetJointsNumber(controller)
  {
    if controller == null then None else Some(controller.dofsChanged)
  }

  /** GetAxesNumber: 0 for a NULL handle. */
  function GetAxesNumber(controller: LegacyController?): (r: nat)
    reads controller
    ensures controller == null ==> r == 0
    ensures controller != null && controller.Valid() ==> r == GetJointsNumber(controller)
  {
    if controller == null then 0 else |controller.axisNames|
  }

  /** GetAxisNamesList: NULL for a NULL handle. */
  function GetAxisNamesList(controller: LegacyController?): (r: Option<seq<string>>)
    reads controller
    ensures r.None? <==> controller == null
    ensures r.Some? ==> |r.value| == GetAxesNumber(controller)
  {
    if controller == null then None else Some(controller.axisNames)
  }

  /** GetAxesChangedList: NULL for a NULL handle; otherwise the same flags as the joints'. */
  function GetAxesChangedList(controller: LegacyController?): (r: Option<seq<bool>>)
    reads controller
    ensures r == GetJointsChangedList(controller)
  {
    if controller == null then None else Some(controller.dofsChanged)
  }

  /** A NULL handle has no joints and no axes and yields no lists. */
  lemma NullHandleYieldsNothing(controller: LegacyController?)
    requires controller == null
    ensures GetJointsNumber(controller) == 0 && GetAxesNumber(controller) == 0
    ensures GetJointNamesList(controller).None? && GetJointsChangedList(controller).None?
    ensures GetAxisNamesList(controller).None? && GetAxesChangedList(controller).None?
  {
  }

  /** For a live handle the counts are the lengths of the lists the getters hand out, joints and
      axes agree, and both changed lists are the same flags. */
  lemma GettersAgree(controller: LegacyController?)
    requires controller != null && controller.Valid()
    ensures GetJointNamesList(controller).Some? && |GetJointNamesList(controller).value| == GetJointsNumber(controller)
    ensures GetAxisNamesList(controller).Some? && |GetAxisNamesList(controller).value| == GetAxesNumber(controller)
    ensures GetJointsChangedList(controller).Some? && |GetJointsChangedList(controller).value| == GetJointsNumber(controller)
    ensures GetAxesNumber(controller) == GetJointsNumber(controller)
    ensures GetAxesChangedList(controller) == GetJointsChangedList(controller)
  {
  }

  /** After InitController every joint is reported changed, one per kept actuator, named by the
      coordinate it drives. */
  lemma StartedGetters(controller: LegacyController, d: ModelDescription)
    requires controller.Started(d)
    ensures GetJointsNumber(controller) == |JointActuators(d.actuators)|
    ensures GetJointsChangedList(controller) == Some(seq(|JointActuators(d.actuators)|, _ => true))
    ensures forall j | 0 <= j < GetJointsNumber(controller) ::
              GetJointNamesList(controller).value[j] == JointActuators(d.actuators)[j].coordinateName
  {
  }

  /** SetControlState: nothing for a NULL handle. */
  method SetControlState(controller: LegacyController?, newControlState: Phase)
    requires controller != null ==> controller.processorExists || !TouchesProcessor(controller.phase, newControlState)
    modifies controller
    ensures controller != null ==>
              && controller.Machine() == LegacyTransition(old(controller.Machine()), newControlState, controller.env.fit, controller.muscleCount)
              && unchanged(controller`ready, controller`processorExists, controller`engine, controller`muscleCount,
                           controller`actuators, controller`jointNames, controller`axisNames, controller`dofsChanged)
  {
    if controller == null {
      return;
    }
    controller.ApplyControlState(newControlState);
  }

  /** RunControlStep: nothing for a NULL handle. `readings` are the values Sensors.Update returns
      for the controller's sensors during this call. */
  method RunControlStep(controller: LegacyController?, readings: seq<real>, jointMeasures: array<RobotVariables>,
                        axisMeasures: array<RobotVariables>, jointSetpoints: array<RobotVariables>,
                        axisSetpoints: array<RobotVariables>, timeDelta: real)
    returns (emgInputs: seq<real>, positionInputs: seq<real>, forceOutputs: seq<real>,
             ghost written: seq<real>, ghost posed: EngineState)
    requires controller != null ==>
               && controller.ready && |readings| == |controller.sensors|
               && |controller.actuators| <= jointMeasures.Length && |controller.actuators| <= axisMeasures.Length
               && |controller.actuators| <= jointSetpoints.Length && |controller.actuators| <= axisSetpoints.Length
    requires SeparateLists(jointMeasures, axisMeasures, jointSetpoints, axisSetpoints)
    modifies controller, axisMeasures, jointSetpoints
    ensures controller == null ==> axisMeasures[..] == old(axisMeasures[..]) && jointSetpoints[..] == old(jointSetpoints[..])
    ensures controller != null ==>
              unchanged(controller`ready, controller`phase, controller`forcesOn, controller`actuators,
                        controller`sensors, controller`jointNames, controller`axisNames, controller`dofsChanged)
    ensures controller != null ==>
              var n := |controller.actuators|;
              && TickComputed(controller.strides, controller.env, controller.phase, old(controller.engine),
                              controller.actuators, old(jointMeasures[..n]), old(jointSetpoints[..n]), readings,
                              timeDelta, emgInputs, positionInputs, written, forceOutputs, posed, controller.engine)
              && controller.samples == old(controller.samples)
                   + (if controller.phase == Preprocessing then [Sample(emgInputs, positionInputs, written)] else [])
              && (forall j: nat | j < n ::
                    AxisReported(controller.strides, controller.env, controller.engine, controller.actuators,
                                 forceOutputs, axisMeasures[j], old(axisMeasures[j]), j))
              && (forall j | n <= j < axisMeasures.Length :: axisMeasures[j] == old(axisMeasures[j]))
              && (forall j | 0 <= j < n :: jointSetpoints[j] == CopiedSetpoint(old(jointSetpoints[j]), axisSetpoints[j]))
              && (forall j | n <= j < jointSetpoints.Length :: jointSetpoints[j] == old(jointSetpoints[j]))
  {
    if controller == null {
      return [], [], [], [], EngineState(0.0, map[], map[], map[]);
    }
    emgInputs, positionInputs, forceOutputs, written, posed :=
      controller.ControlStep(readings, jointMeasures, axisMeasures, jointSetpoints, axisSetpoints, timeDelta);
  }
}
