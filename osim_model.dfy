/** The OpenSim joint controller of osim_model.cpp: the global `controller` record as a class, with
    InitController's actuator classification, EndController, the EMG input setter,
    SetControlState's phase machine and RunControlStep's per-tick sample handling. */
module OsimModel {
  import opened ControlCommon
  import opened Preprocess
  import opened PhaseMachine

  /** What InitController obtains from the .osim file and initSystem: the actuator set (with each
      actuator's membership of the muscle set and its type), the names of the coordinate set in
      order, whether each force of the force set applies, and the initial state. */
  datatype ModelDescription = ModelDescription(actuators: seq<Actuator>, coordinateNames: seq<string>,
                                               forcesApply: seq<bool>, initialState: EngineState)

  /** Measured values reported for axis j: the packed kinematics of joint j and its two output
      slots. */
  function MeasuredAxis(lay: Layout, previous: RobotVariables, inputs: seq<real>, outputs: seq<real>, j: nat): RobotVariables
    requires lay.Valid() && lay.InSlot(j, lay.MaxInputField()) < |inputs|
    requires lay.OutSlot(j, lay.torqueInt) < |outputs| && lay.OutSlot(j, lay.stiffness) < |outputs|
  {
    previous.(position := inputs[lay.InSlot(j, lay.position)], velocity := inputs[lay.InSlot(j, lay.velocity)],
              acceleration := inputs[lay.InSlot(j, lay.acceleration)],
              force := outputs[lay.OutSlot(j, lay.torqueInt)], stiffness := outputs[lay.OutSlot(j, lay.stiffness)])
  }

  /** Axis j reports what MeasuredAxis computes from its previous record. */
  ghost predicate AxisMeasured(lay: Layout, now: RobotVariables, previous: RobotVariables, inputs: seq<real>, outputs: seq<real>, j: nat)
    requires lay.Valid()
  {
    && lay.InSlot(j, lay.MaxInputField()) < |inputs|
    && lay.OutSlot(j, lay.torqueInt) < |outputs| && lay.OutSlot(j, lay.stiffness) < |outputs|
    && now == MeasuredAxis(lay, previous, inputs, outputs, j)
  }

  /** The joint set point takes position, velocity, acceleration and force from the axis set point
      and keeps its own stiffness. */
  function CopiedSetpoint(joint: RobotVariables, axis: RobotVariables): RobotVariables {
    joint.(position := axis.position, velocity := axis.velocity, acceleration := axis.acceleration, force := axis.force)
  }

  /** The last loop of RunControlStep: axis measures from the packed inputs and outputs, joint set
      points from the axis set points, for the first n entries; the rest stay as they were. */
  method CopyAxisValues(lay: Layout, inputs: seq<real>, outputs: seq<real>, n: nat,
                        axisMeasures: array<RobotVariables>, jointSetpoints: array<RobotVariables>,
                        axisSetpoints: array<RobotVariables>)
    requires lay.Valid() && |inputs| == n * lay.inStride && |outputs| == n * lay.outStride
    requires n <= axisMeasures.Length && n <= jointSetpoints.Length && n <= axisSetpoints.Length
    requires axisMeasures != jointSetpoints && axisMeasures != axisSetpoints && jointSetpoints != axisSetpoints
    modifies axisMeasures, jointSetpoints
    ensures forall j | 0 <= j < n :: AxisMeasured(lay, axisMeasures[j], old(axisMeasures[j]), inputs, outputs, j)
    ensures forall j | 0 <= j < n :: jointSetpoints[j] == CopiedSetpoint(old(jointSetpoints[j]), axisSetpoints[j])
    ensures forall j | n <= j < axisMeasures.Length :: axisMeasures[j] == old(axisMeasures[j])
    ensures forall j | n <= j < jointSetpoints.Length :: jointSetpoints[j] == old(jointSetpoints[j])
  {
    for jointIndex := 0 to n
      invariant forall j | 0 <= j < jointIndex :: AxisMeasured(lay, axisMeasures[j], old(axisMeasures[j]), inputs, outputs, j)
      invariant forall j | 0 <= j < jointIndex :: jointSetpoints[j] == CopiedSetpoint(old(jointSetpoints[j]), axisSetpoints[j])
      invariant forall j | jointIndex <= j < axisMeasures.Length :: axisMeasures[j] == old(axisMeasures[j])
      invariant forall j | jointIndex <= j < jointSetpoints.Length :: jointSetpoints[j] == old(jointSetpoints[j])
    {
      SlotInside(jointIndex, n, lay.inStride, lay.MaxInputField());
      OutputSlotsInside(lay, jointIndex, n);
      axisMeasures[jointIndex] := MeasuredAxis(lay, axisMeasures[jointIndex], inputs, outputs, jointIndex);
      jointSetpoints[jointIndex] := CopiedSetpoint(jointSetpoints[jointIndex], axisSetpoints[jointIndex]);
    }
  }

  /** What the actuator loop of InitController has built: whether it ran to the end, and the
      kept actuators with their coordinate names and coordinate indexes. */
  datatype Classified = Classified(ok: bool, kept: seq<Actuator>, names: seq<string>, indexes: seq<nat>)

  /** The actuator loop over `actuators`: an actuator that is not a muscle and is a coordinate
      actuator has its coordinate looked up by its own name and is kept with that coordinate's name
      and index; a failed lookup throws, which stops the loop with what was built so far. */
  function Classify(actuators: seq<Actuator>, coordinateNames: seq<string>): Classified
    decreases |actuators|
  {
    if actuators == [] then Classified(true, [], [], [])
    else
      var c := Classify(actuators[..|actuators| - 1], coordinateNames);
      var actuator := actuators[|actuators| - 1];
      if !c.ok || !IsJointActuator(actuator) then c
      else match IndexOf(coordinateNames, actuator.name)
        case None => c.(ok := false)
        case Some(i) => Classified(true, c.kept + [actuator], c.names + [coordinateNames[i]], c.indexes + [i])
  }

  /** The loop runs to the end exactly when every joint actuator names a coordinate. */
  lemma {:induction false} ClassifySucceedsIff(actuators: seq<Actuator>, coordinateNames: seq<string>)
    ensures Classify(actuators, coordinateNames).ok <==> forall a | a in JointActuators(actuators) :: a.name in coordinateNames
    decreases |actuators|
  {
    if actuators != [] {
      var init := actuators[..|actuators| - 1];
      ClassifySucceedsIff(init, coordinateNames);
      assert JointActuators(actuators) == JointActuators(init) + (if IsJointActuator(actuators[|actuators| - 1]) then [actuators[|actuators| - 1]] else []);
    }
  }

  /** The loop always keeps a prefix of the joint actuators in order, and all of them when it
      runs to the end. */
  lemma {:induction false} ClassifyKeepsJointActuators(actuators: seq<Actuator>, coordinateNames: seq<string>)
    ensures var c := Classify(actuators, coordinateNames);
            && c.kept <= JointActuators(actuators)
            && (c.ok ==> c.kept == JointActuators(actuators))
    decreases |actuators|
  {
    if actuators != [] {
      ClassifyKeepsJointActuators(actuators[..|actuators| - 1], coordinateNames);
    }
  }

  /** Each kept actuator comes with the name of its coordinate, which is its own name, and the
      index of that name in the coordinate set. */
  lemma {:induction false} ClassifyLooksUpOwnName(actuators: seq<Actuator>, coordinateNames: seq<string>)
    ensures var c := Classify(actuators, coordinateNames);
            && |c.names| == |c.kept| && |c.indexes| == |c.kept|
            && forall j | 0 <= j < |c.kept| ::
                 c.names[j] == c.kept[j].name && IndexOf(coordinateNames, c.kept[j].name) == Some(c.indexes[j])
    decreases |actuators|
  {
    if actuators != [] {
      ClassifyLooksUpOwnName(actuators[..|actuators| - 1], coordinateNames);
    }
  }

  /** The lists grow in lockstep and every coordinate index is one of the coordinate set. */
  lemma {:induction false} ClassifyInLockstep(actuators: seq<Actuator>, coordinateNames: seq<string>)
    ensures var c := Classify(actuators, coordinateNames);
            && |c.names| == |c.kept| && |c.indexes| == |c.kept|
            && forall j | 0 <= j < |c.indexes| :: c.indexes[j] < |coordinateNames|
    decreases |actuators|
  {
    if actuators != [] {
      ClassifyInLockstep(actuators[..|actuators| - 1], coordinateNames);
    }
  }

  /** Once the loop has stopped, the actuators after the stopping point change nothing. */
  lemma {:induction false} ClassifyStops(actuators: seq<Actuator>, coordinateNames: seq<string>, i: nat)
    requires i <= |actuators| && !Classify(actuators[..i], coordinateNames).ok
    ensures Classify(actuators, coordinateNames) == Classify(actuators[..i], coordinateNames)
    decreases |actuators| - i
  {
    if i < |actuators| {
      assert actuators[..i + 1][..i] == actuators[..i];
      ClassifyStops(actuators, coordinateNames, i + 1);
    } else {
      assert actuators[..i] == actuators;
    }
  }

  /** The actuator loop of InitController. */
  method ClassifyActuators(d: ModelDescription) returns (ok: bool, kept: seq<Actuator>, names: seq<string>, indexes: seq<nat>)
    ensures Classified(ok, kept, names, indexes) == Classify(d.actuators, d.coordinateNames)
  {
    kept, names, indexes := [], [], [];
    ok := true;
    for actuatorIndex := 0 to |d.actuators|
      invariant Classified(true, kept, names, indexes) == Classify(d.actuators[..actuatorIndex], d.coordinateNames)
    {
      assert d.actuators[..actuatorIndex + 1][..actuatorIndex] == d.actuators[..actuatorIndex];
      var actuator := d.actuators[actuatorIndex];
      if !actuator.isMuscle && actuator.isCoordinateActuator {
        var actuatorCoordinate := IndexOf(d.coordinateNames, actuator.name);
        if actuatorCoordinate.None? {
          ClassifyStops(d.actuators, d.coordinateNames, actuatorIndex + 1);
          ok := false;
          break;
        }
        kept := kept + [actuator];
        names := names + [d.coordinateNames[actuatorCoordinate.value]];
        indexes := indexes + [actuatorCoordinate.value];
      }
    }
    if ok {
      assert d.actuators[..|d.actuators|] == d.actuators;
    }
  }

  class Controller {
    const layout: ValidLayout
    const env: OsimEnvironment

    /** The model is loaded and the EMG processor exists. */
    var ready: bool
    var phase: Phase
    /** appliesForce of each force in the model's force set. */
    var forcesOn: seq<bool>
    var engine: EngineState
    var coordinateCount: nat
    var muscleCount: nat
    var actuators: seq<Actuator>
    var accelerationIndexes: seq<nat>
    var jointNames: seq<string>
    var axisNames: seq<string>
    var emgInputs: seq<real>
    /** The samples handed to the EMG processor's store since its last reset. */
    var samples: seq<Sample>
    /** The capacity the EMG processor was created with. */
    var sampleCapacity: nat
    /** The parameters last passed to SetParameters. */
    var fitted: Option<seq<real>>

    /** The actuator and acceleration-index lists are pushed together, so they always have the
        same length. */
    ghost predicate Valid()
      reads this`actuators, this`accelerationIndexes
    {
      |accelerationIndexes| == |actuators|
    }

    /** Every acceleration index lies inside the loaded model's coordinate set, as the control step
        needs when it indexes the accelerations by them. */
    ghost predicate IndexesInside()
      reads this`accelerationIndexes, this`coordinateCount
    {
      forall j | 0 <= j < |accelerationIndexes| :: accelerationIndexes[j] < coordinateCount
    }

    /** One joint name and one axis name per actuator, as the getters report them to the host. */
    ghost predicate NamesInLockstep()
      reads this`actuators, this`jointNames, this`axisNames
    {
      |jointNames| == |actuators| && |axisNames| == |actuators|
    }

    /** The zero-initialised global before InitController. */
    ghost predicate Pristine()
      reads this
    {
      && !ready && phase == Passive && forcesOn == [] && coordinateCount == 0 && muscleCount == 0
      && actuators == [] && accelerationIndexes == [] && jointNames == [] && axisNames == []
      && emgInputs == [] && samples == [] && sampleCapacity == 0 && fitted == None
    }

    /** The part of the state SetControlState and the sample store act on. */
    ghost function Machine(): MachineState
      reads this`phase, this`forcesOn, this`samples, this`fitted
    {
      MachineState(phase, forcesOn, samples, fitted)
    }

    constructor (layout: ValidLayout, env: OsimEnvironment)
      ensures Valid() && NamesInLockstep() && Pristine() && this.layout == layout && this.env == env
    {
      this.layout := layout;
      this.env := env;
      ready := false;
      phase := Passive;
      forcesOn := [];
      engine := EngineState(0.0, map[], map[], map[]);
      coordinateCount := 0;
      muscleCount := 0;
      actuators := [];
      accelerationIndexes := [];
      jointNames := [];
      axisNames := [];
      emgInputs := [];
      samples := [];
      sampleCapacity := 0;
      fitted := None;
    }

    /** The loop over the force set that sets appliesForce on every force. */
    method SwitchAllForces(on: bool)
      modifies this`forcesOn
      ensures forcesOn == seq(|old(forcesOn)|, _ => on)
    {
      for forceIndex := 0 to |forcesOn|
        invariant |forcesOn| == |old(forcesOn)|
        invariant forall k | 0 <= k < forceIndex :: forcesOn[k] == on
      {
        forcesOn := forcesOn[forceIndex := on];
      }
    }

    /** SetControlState: the phase machine of PhaseMachine.Transition, with GetInitialParameters
        and the optimizer taken from the environment. */
    method SetControlState(newControlState: Phase)
      requires ready
      modifies this`phase, this`forcesOn, this`samples, this`fitted
      ensures Machine() == Transition(old(Machine()), newControlState, env.fit, env.initialParameters)
    {
      SwitchAllForces(false);
      if newControlState == Offset {
      } else if newControlState == Calibration {
      } else if newControlState == Preprocessing {
        samples := [];
      } else if newControlState == Operation {
        if phase == Preprocessing {
          var parametersList := env.fit(FitSettings, samples, env.initialParameters);
          fitted := Some(parametersList);
          SwitchAllForces(true);
        }
      }
      phase := newControlState;
    }

    /** EndController: the model is deleted and the joint names, axis names and EMG inputs are
        cleared; the actuator and acceleration-index lists are not, so the names fall out of step
        with the actuators unless there are none. */
    method EndController()
      modifies this`ready, this`jointNames, this`axisNames, this`emgInputs
      ensures !ready && jointNames == [] && axisNames == [] && emgInputs == []
      ensures NamesInLockstep() <==> actuators == []
    {
      ready := false;
      jointNames := [];
      axisNames := [];
      emgInputs := [];
    }

    /** The part of InitController between initSystem and the creation of the processor: the
        initial state, the forces, the coordinate and muscle counts and the actuator loop, which
        pushes onto whatever the actuator, name and index lists already hold. */
    method LoadModel(d: ModelDescription) returns (ok: bool)
      requires Valid()
      modifies this`engine, this`forcesOn, this`coordinateCount, this`muscleCount
      modifies this`actuators, this`jointNames, this`axisNames, this`accelerationIndexes
      ensures Valid()
      ensures var c := Classify(d.actuators, d.coordinateNames);
              && ok == c.ok && actuators == old(actuators) + c.kept && jointNames == old(jointNames) + c.names
              && axisNames == old(axisNames) + c.names && accelerationIndexes == old(accelerationIndexes) + c.indexes
      ensures engine == d.initialState && forcesOn == d.forcesApply
      ensures coordinateCount == |d.coordinateNames| && muscleCount == |Muscles(d.actuators)|
      ensures forall j | |old(accelerationIndexes)| <= j < |accelerationIndexes| :: accelerationIndexes[j] < coordinateCount
    {
      engine := d.initialState;
      forcesOn := d.forcesApply;
      coordinateCount := |d.coordinateNames|;
      muscleCount := |Muscles(d.actuators)|;
      var kept, names, indexes;
      ok, kept, names, indexes := ClassifyActuators(d);
      ClassifyInLockstep(d.actuators, d.coordinateNames);
      actuators, jointNames, axisNames := actuators + kept, jointNames + names, axisNames + names;
      accelerationIndexes := accelerationIndexes + indexes;
    }

    /** The end of a successful InitController: a new EMG processor, with an empty store, no
        parameters set and capacity 1000, and the request for PREPROCESSING. */
    method StartProcessor()
      modifies this`ready, this`sampleCapacity, this`phase, this`forcesOn, this`samples, this`fitted
      ensures ready && sampleCapacity == SampleCapacity
      ensures Machine() == MachineState(Preprocessing, seq(|old(forcesOn)|, _ => false), [], None)
    {
      sampleCapacity := SampleCapacity;
      samples := [];
      fitted := None;
      ready := true;
      EnterPreprocessing(Machine(), env.fit, env.initialParameters);
      SetControlState(Preprocessing);
    }

    /** InitController. `model` is None when loading the .osim file or initSystem throws; the
        actuator loop's failed coordinate lookup throws too. Every failure runs EndController and
        returns `false`. Nothing is cleared before loading, so a second InitController appends
        to the actuator and index lists that EndController keeps: the indexes stay inside the new
        model only if the old ones do, and the names stay in step with the actuators only if they
        were before. */
    method InitController(model: Option<ModelDescription>) returns (ok: bool)
      requires Valid()
      modifies this
      ensures Valid()
      ensures model.None? ==> !ok && actuators == old(actuators) && accelerationIndexes == old(accelerationIndexes)
      ensures model.Some? ==> var c := Classify(model.value.actuators, model.value.coordinateNames);
                              && ok == c.ok && actuators == old(actuators) + c.kept
                              && accelerationIndexes == old(accelerationIndexes) + c.indexes
                              && jointNames == (if ok then old(jointNames) + c.names else [])
                              && axisNames == (if ok then old(axisNames) + c.names else [])
      ensures ok ==> && ready && sampleCapacity == SampleCapacity
                     && Machine() == MachineState(Preprocessing, seq(|model.value.forcesApply|, _ => false), [], None)
                     && coordinateCount == |model.value.coordinateNames| && muscleCount == |Muscles(model.value.actuators)|
                     && engine == model.value.initialState && emgInputs == old(emgInputs)
      ensures ok ==> (IndexesInside() <==> forall j | 0 <= j < |old(accelerationIndexes)| :: old(accelerationIndexes)[j] < coordinateCount)
      ensures ok ==> (NamesInLockstep() <==> old(NamesInLockstep()))
      ensures !ok ==> && !ready && jointNames == [] && axisNames == [] && emgInputs == []
                      && phase == old(phase) && samples == old(samples) && fitted == old(fitted)
    {
      if model.None? {
        EndController();
        return false;
      }
      ok := LoadModel(model.value);
      ClassifyInLockstep(model.value.actuators, model.value.coordinateNames);
      if !ok {
        EndController();
        return false;
      }
      assert accelerationIndexes[..|old(accelerationIndexes)|] == old(accelerationIndexes);
      StartProcessor();
    }

    /** SetExtraInputsList: the EMG inputs become the first GetExtraInputsNumber() (the number of
        muscles) entries of the host's list. */
    method SetExtraInputsList(inputsList: seq<real>)
      requires ready && muscleCount <= |inputsList|
      modifies this`emgInputs
      ensures emgInputs == inputsList[..muscleCount]
    {
      emgInputs := inputsList[..muscleCount];
    }

    /** The part of RunControlStep before the axis loop. The engine time is reset, the first
        n = |actuators| joint measures are packed, PreProcessSample poses the engine and fills a
        fresh output vector, the sample is stored in PREPROCESSING or the outputs recomputed by the
        processor in OPERATION, and the engine is integrated over the time step. PreProcessSample
        reads the packed vector past the EMG inputs, so the reads stay inside only as long as that
        offset is covered by the vector. */
    method ProcessSample(jointMeasures: array<RobotVariables>, timeDelta: real)
      returns (inputs: seq<real>, outputs: seq<real>, ghost posed: EngineState)
      requires Valid() && IndexesInside() && ready && |actuators| <= jointMeasures.Length
      requires ShiftedReadsInside(layout, |emgInputs|, |actuators|, |actuators| * layout.inStride)
      modifies this`engine, this`samples
      ensures SampleAcquired(layout, env, phase, fitted, emgInputs, coordinateCount, accelerationIndexes,
                             old(engine), jointMeasures[..|actuators|], inputs, outputs, posed)
      ensures engine == env.integrate(posed, timeDelta)
      ensures Machine() == Record(old(Machine()), Sample(emgInputs, inputs, outputs))
    {
      var n := |actuators|;
      engine := engine.(time := 0.0);
      inputs := PackJointInputs(layout, jointMeasures, n);
      var actuatorOutputs := new real[layout.OutSize(n)];
      var pose, accelerations := PreProcessSample(layout, env.inverseDynamics, engine, coordinateCount,
                                                  accelerationIndexes, |emgInputs|, inputs, actuatorOutputs);
      engine := pose;
      posed := pose;
      outputs := actuatorOutputs[..];
      if phase == Preprocessing {
        samples := samples + [Sample(emgInputs, inputs, outputs)];
      } else if phase == Operation {
        outputs := ProcessorOutputs(env, fitted, emgInputs, inputs, n * layout.outStride);
      }
      engine := env.integrate(engine, timeDelta);
    }

    /** RunControlStep: ProcessSample, then the axis measures and joint set points are written. */
    method RunControlStep(jointMeasures: array<RobotVariables>, axisMeasures: array<RobotVariables>,
                          jointSetpoints: array<RobotVariables>, axisSetpoints: array<RobotVariables>, timeDelta: real)
      returns (inputs: seq<real>, outputs: seq<real>, ghost posed: EngineState)
      requires Valid() && IndexesInside() && ready
      requires |actuators| <= jointMeasures.Length && |actuators| <= axisMeasures.Length
      requires |actuators| <= jointSetpoints.Length && |actuators| <= axisSetpoints.Length
      requires axisMeasures != jointSetpoints && axisMeasures != axisSetpoints && jointSetpoints != axisSetpoints
      requires ShiftedReadsInside(layout, |emgInputs|, |actuators|, |actuators| * layout.inStride)
      modifies this`engine, this`samples, axisMeasures, jointSetpoints
      ensures SampleAcquired(layout, env, phase, fitted, emgInputs, coordinateCount, accelerationIndexes,
                             old(engine), old(jointMeasures[..|actuators|]), inputs, outputs, posed)
      ensures engine == env.integrate(posed, timeDelta)
      ensures Machine() == Record(old(Machine()), Sample(emgInputs, inputs, outputs))
      ensures forall j | 0 <= j < |actuators| :: AxisMeasured(layout, axisMeasures[j], old(axisMeasures[j]), inputs, outputs, j)
      ensures forall j | 0 <= j < |actuators| :: jointSetpoints[j] == CopiedSetpoint(old(jointSetpoints[j]), axisSetpoints[j])
      ensures forall j | |actuators| <= j < axisMeasures.Length :: axisMeasures[j] == old(axisMeasures[j])
      ensures forall j | |actuators| <= j < jointSetpoints.Length :: jointSetpoints[j] == old(jointSetpoints[j])
    {
      inputs, outputs, posed := ProcessSample(jointMeasures, timeDelta);
      CopyAxisValues(layout, inputs, outputs, |actuators|, axisMeasures, jointSetpoints, axisSetpoints);
    }
  }
}
