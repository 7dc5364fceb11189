/** The inverse-kinematics variant of the OpenSim joint controller, osim_model-ik.cpp: its global
    `controller` record as a class, with InitController (built from the start-up steps of IkSetup),
    EndController, the EMG input setter, SetControlState's phase machine and RunControlStep, which
    runs the shared sample handling and then the marker-following step of IkStep. */
module OsimModelIk {
  import opened ControlCommon
  import opened Strings
  import opened Preprocess
  import opened PhaseMachine
  import opened IkSetup
  import opened IkStep

  class IkController {
    const layout: ValidLayout
    const env: IkEnvironment

    /** The model is loaded and the EMG processor exists. */
    var ready: bool
    var phase: Phase
    /** appliesForce of each force in the model's force set. */
    var forcesOn: seq<bool>
    var engine: EngineState
    var coordinateCount: nat
    var muscleCount: nat
    var actuators: seq<Actuator>
    var accelerationIndexes: seq<nat>
    var jointNames: seq<string>
    var axisNames: seq<string>
    var emgInputs: seq<real>
    /** The samples handed to the EMG processor's store since its last reset. */
    var samples: seq<Sample>
    /** The capacity the EMG processor was created with. */
    var sampleCapacity: nat
    /** The parameters last passed to SetParameters. */
    var fitted: Option<seq<real>>
    /** The reference markers (`markers`), by their index in the model's marker set. */
    var markerIndexes: seq<nat>
    var markerLabels: seq<string>
    var markerWeights: seq<MarkerWeight>
    var markerInitialLocations: seq<Vec3>
    /** The one row of markerSetpointsTable. */
    var markerSetpointsTable: seq<Vec3>

    /** The sizes every operation keeps: the actuator and acceleration-index lists are pushed
        together, as are the marker labels and weights, and the reference markers and their axis
        names are pushed and cleared together; once loaded, there is one initial location and
        one set-point table entry per reference marker. */
    ghost predicate Valid()
      reads this`ready, this`actuators, this`accelerationIndexes, this`markerIndexes, this`markerLabels
      reads this`markerWeights, this`markerInitialLocations, this`markerSetpointsTable, this`axisNames
    {
      && |accelerationIndexes| == |actuators| && |markerWeights| == |markerLabels|
      && |axisNames| == 3 * |markerIndexes|
      && (ready ==> |markerInitialLocations| == |markerIndexes| && |markerSetpointsTable| == |markerIndexes|)
    }

    /** Every acceleration index lies inside the loaded model's coordinate set, as the control step
        needs when it indexes the accelerations by them. */
    ghost predicate IndexesInside()
      reads this`accelerationIndexes, this`coordinateCount
    {
      forall j | 0 <= j < |accelerationIndexes| :: accelerationIndexes[j] < coordinateCount
    }

    /** One joint name per actuator, and one label and one weight per reference marker. */
    ghost predicate NamesInLockstep()
      reads this`actuators, this`jointNames, this`markerIndexes, this`markerLabels, this`markerWeights
    {
      |jointNames| == |actuators| && |markerLabels| == |markerIndexes| && |markerWeights| == |markerIndexes|
    }

    /** The zero-initialised global before InitController. */
    ghost predicate Pristine()
      reads this
    {
      && !ready && phase == Passive && forcesOn == [] && coordinateCount == 0 && muscleCount == 0
      && actuators == [] && accelerationIndexes == [] && jointNames == [] && axisNames == []
      && emgInputs == [] && samples == [] && sampleCapacity == 0 && fitted == None
      && markerIndexes == [] && markerLabels == [] && markerWeights == [] && markerInitialLocations == []
      && markerSetpointsTable == []
    }

    /** The part of the state SetControlState and the sample store act on. */
    ghost function Machine(): MachineState
      reads this`phase, this`forcesOn, this`samples, this`fitted
    {
      MachineState(phase, forcesOn, samples, fitted)
    }

    constructor (layout: ValidLayout, env: IkEnvironment)
      ensures Valid() && NamesInLockstep() && Pristine() && this.layout == layout && this.env == env
    {
      this.layout := layout;
      this.env := env;
      ready := false;
      phase := Passive;
      forcesOn := [];
      engine := EngineState(0.0, map[], map[], map[]);
      coordinateCount := 0;
      muscleCount := 0;
      actuators := [];
      accelerationIndexes := [];
      jointNames := [];
      axisNames := [];
      emgInputs := [];
      samples := [];
      sampleCapacity := 0;
      fitted := None;
      markerIndexes := [];
      markerLabels := [];
      markerWeights := [];
      markerInitialLocations := [];
      markerSetpointsTable := [];
    }

    /** The loop over the force set that sets appliesForce on every force. */
    method SwitchAllForces(on: bool)
      modifies this`forcesOn
      ensures forcesOn == seq(|old(forcesOn)|, _ => on)
    {
      for forceIndex := 0 to |forcesOn|
        invariant |forcesOn| == |old(forcesOn)|
        invariant forall k | 0 <= k < forceIndex :: forcesOn[k] == on
      {
        forcesOn := forcesOn[forceIndex := on];
      }
    }

    /** SetControlState: the phase machine of PhaseMachine.Transition, with GetInitialParameters
        and the optimizer taken from the environment. */
    method SetControlState(newControlState: Phase)
      requires ready
      modifies this`phase, this`forcesOn, this`samples, this`fitted
      ensures Machine() == Transition(old(Machine()), newControlState, env.osim.fit, env.osim.initialParameters)
    {
      SwitchAllForces(false);
      if newControlState == Offset {
      } else if newControlState == Calibration {
      } else if newControlState == Preprocessing {
        samples := [];
      } else if newControlState == Operation {
        if phase == Preprocessing {
          var parametersList := env.osim.fit(FitSettings, samples, env.osim.initialParameters);
          fitted := Some(parametersList);
          SwitchAllForces(true);
        }
      }
      phase := newControlState;
    }

    /** EndController: the reference markers are destroyed, the model is deleted and the joint
        names, axis names and EMG inputs are cleared; the other lists are not, so joint names,
        labels and weights fall out of step unless those lists were empty. */
    method EndController()
      modifies this`ready, this`markerIndexes, this`jointNames, this`axisNames, this`emgInputs
      ensures !ready && markerIndexes == [] && jointNames == [] && axisNames == [] && emgInputs == []
      ensures NamesInLockstep() <==> actuators == [] && markerLabels == [] && markerWeights == []
    {
      ready := false;
      markerIndexes := [];
      jointNames := [];
      axisNames := [];
      emgInputs := [];
    }

    /** The marker loop of InitController, which pushes onto whatever the marker lists hold. */
    method SelectMarkers(markerNames: seq<string>)
      modifies this`markerIndexes, this`markerLabels, this`markerWeights, this`axisNames
      ensures var labels := ReferenceLabels(markerNames);
              && markerIndexes == old(markerIndexes) + ReferenceIndexes(markerNames)
              && markerLabels == old(markerLabels) + labels
              && markerWeights == old(markerWeights) + ReferenceWeights(labels)
              && axisNames == old(axisNames) + AxisNames(labels)
    {
      var indexes, labels, weights, names := SelectReferenceMarkers(markerNames);
      markerIndexes, markerLabels, markerWeights, axisNames := markerIndexes + indexes, markerLabels + labels, markerWeights + weights, axisNames + names;
    }

    /** The actuator loop of InitController, which pushes onto whatever the actuator, joint-name
        and index lists hold. */
    method CollectJoints(d: IkModelDescription)
      modifies this`actuators, this`jointNames, this`accelerationIndexes
      ensures var kept := JointActuators(d.actuators);
              && actuators == old(actuators) + kept && jointNames == old(jointNames) + AttachedNames(kept)
              && accelerationIndexes == old(accelerationIndexes) + AttachedIndexes(kept)
    {
      var kept, names, coords := CollectJointActuators(d.actuators);
      actuators, jointNames, accelerationIndexes := actuators + kept, jointNames + names, accelerationIndexes + coords;
    }

    /** initializeState and the loops after it: the forces from the model and the coordinate of
        every actuator in the list, old entries included, set to 0.0. */
    method InitializeState(d: IkModelDescription)
      modifies this`engine, this`forcesOn, this`coordinateCount, this`muscleCount
      ensures CoordinatesZeroed(d.initialState, accelerationIndexes, engine)
      ensures forcesOn == d.forcesApply && coordinateCount == |d.coordinateNames| && muscleCount == |Muscles(d.actuators)|
    {
      engine := ZeroJointCoordinates(d.initialState, accelerationIndexes);
      forcesOn, coordinateCount, muscleCount := d.forcesApply, |d.coordinateNames|, |Muscles(d.actuators)|;
    }

    /** The resizing of the initial locations and of the set-point table to the number of
        reference markers, and the loop that records each marker's initial location. The table's
        entries are left undefined by the resize; the model zeroes them, and every control step
        overwrites them before the solver reads them. */
    method LocateMarkers()
      modifies this`markerInitialLocations, this`markerSetpointsTable
      ensures |markerInitialLocations| == |markerIndexes| && |markerSetpointsTable| == |markerIndexes|
      ensures forall m | 0 <= m < |markerIndexes| :: markerInitialLocations[m] == env.markerMotion(engine, markerIndexes[m]).location
    {
      markerInitialLocations := InitialMarkerLocations(env.markerMotion, engine, markerIndexes);
      markerSetpointsTable := seq(|markerIndexes|, _ => Vec3(0.0, 0.0, 0.0));
    }

    /** The end of InitController: a new EMG processor, with an empty store, no parameters set
        and capacity 1000, and the request for PREPROCESSING. */
    method StartProcessor()
      modifies this`ready, this`sampleCapacity, this`phase, this`forcesOn, this`samples, this`fitted
      ensures ready && sampleCapacity == SampleCapacity
      ensures Machine() == MachineState(Preprocessing, seq(|old(forcesOn)|, _ => false), [], None)
    {
      sampleCapacity := SampleCapacity;
      samples := [];
      fitted := None;
      ready := true;
      EnterPreprocessing(Machine(), env.osim.fit, env.osim.initialParameters);
      SetControlState(Preprocessing);
    }

    /** What initializeState and the loops after it leave: the initialized state with the
        coordinate of every listed actuator at 0.0, the model's coordinate and muscle counts, and
        one initial location in ground, at that state, and one set-point table entry per
        reference marker. */
    ghost predicate StateRead(d: IkModelDescription)
      reads this`engine, this`accelerationIndexes, this`coordinateCount, this`muscleCount
      reads this`markerIndexes, this`markerInitialLocations, this`markerSetpointsTable
    {
      && CoordinatesZeroed(d.initialState, accelerationIndexes, engine)
      && coordinateCount == |d.coordinateNames| && muscleCount == |Muscles(d.actuators)|
      && |markerInitialLocations| == |markerIndexes| && |markerSetpointsTable| == |markerIndexes|
      && (forall m | 0 <= m < |markerIndexes| :: markerInitialLocations[m] == env.markerMotion(engine, markerIndexes[m]).location)
    }

    /** The part of InitController's try block after buildSystem: the actuator loop,
        initializeState, the loop that zeroes the joint coordinates, the marker locations and
        the new processor. It stops, with `false`, when initializeState throws. */
    method LoadJoints(d: IkModelDescription, stage: IkStage) returns (ok: bool)
      requires AttachedCoordinatesListed(d) && (stage.InitializeStateThrows? || stage.Completes?)
      modifies this`actuators, this`jointNames, this`accelerationIndexes
      modifies this`engine, this`forcesOn, this`coordinateCount, this`muscleCount
      modifies this`markerInitialLocations, this`markerSetpointsTable
      modifies this`ready, this`sampleCapacity, this`phase, this`samples, this`fitted
      ensures ok == stage.Completes?
      ensures var kept := JointActuators(d.actuators);
              && actuators == old(actuators) + kept && jointNames == old(jointNames) + AttachedNames(kept)
              && accelerationIndexes == old(accelerationIndexes) + AttachedIndexes(kept)
      ensures !ok ==> phase == old(phase) && samples == old(samples) && fitted == old(fitted)
      ensures ok ==> && StateRead(d) && ready && sampleCapacity == SampleCapacity
                     && Machine() == MachineState(Preprocessing, seq(|d.forcesApply|, _ => false), [], None)
      ensures ok ==> (IndexesInside() <==> forall j | 0 <= j < |old(accelerationIndexes)| :: old(accelerationIndexes)[j] < coordinateCount)
    {
      CollectJoints(d);
      if stage.InitializeStateThrows? {
        return false;
      }
      InitializeState(d);
      LocateMarkers();
      JointActuatorsExact(d.actuators);
      assert accelerationIndexes[..|old(accelerationIndexes)|] == old(accelerationIndexes);
      StartProcessor();
      ok := true;
    }

    /** InitController's try block: the loading of the .osim file, the marker loop, buildSystem
        and then LoadJoints. It stops, with `false`, where `stage` says it throws. */
    method LoadModel(d: IkModelDescription, stage: IkStage) returns (ok: bool)
      requires Valid() && AttachedCoordinatesListed(d)
      modifies this`markerIndexes, this`markerLabels, this`markerWeights, this`axisNames
      modifies this`actuators, this`jointNames, this`accelerationIndexes
      modifies this`engine, this`forcesOn, this`coordinateCount, this`muscleCount
      modifies this`markerInitialLocations, this`markerSetpointsTable
      modifies this`ready, this`sampleCapacity, this`phase, this`samples, this`fitted
      ensures ok == stage.Completes?
      ensures |accelerationIndexes| == |actuators| && |markerWeights| == |markerLabels| && |axisNames| == 3 * |markerIndexes|
      ensures stage.LoadThrows? ==> && markerIndexes == old(markerIndexes) && markerLabels == old(markerLabels)
                                    && markerWeights == old(markerWeights) && axisNames == old(axisNames)
      ensures !stage.LoadThrows? ==> var labels := ReferenceLabels(d.markerNames);
                && markerIndexes == old(markerIndexes) + ReferenceIndexes(d.markerNames)
                && markerLabels == old(markerLabels) + labels
                && markerWeights == old(markerWeights) + ReferenceWeights(labels)
                && axisNames == old(axisNames) + AxisNames(labels)
      ensures stage.LoadThrows? || stage.BuildSystemThrows? ==>
                actuators == old(actuators) && accelerationIndexes == old(accelerationIndexes)
      ensures stage.InitializeStateThrows? || stage.Completes? ==> var kept := JointActuators(d.actuators);
                && actuators == old(actuators) + kept && jointNames == old(jointNames) + AttachedNames(kept)
                && accelerationIndexes == old(accelerationIndexes) + AttachedIndexes(kept)
      ensures !ok ==> phase == old(phase) && samples == old(samples) && fitted == old(fitted)
      ensures ok ==> && StateRead(d) && ready && sampleCapacity == SampleCapacity
                     && Machine() == MachineState(Preprocessing, seq(|d.forcesApply|, _ => false), [], None)
      ensures ok ==> (IndexesInside() <==> forall j | 0 <= j < |old(accelerationIndexes)| :: old(accelerationIndexes)[j] < coordinateCount)
      ensures ok ==> (NamesInLockstep() <==> old(NamesInLockstep()))
    {
      if stage.LoadThrows? {
        return false;
      }
      SelectMarkers(d.markerNames);
      if stage.BuildSystemThrows? {
        return false;
      }
      ok := LoadJoints(d, stage);
    }

    /** InitController, for a .osim file holding `d`: `stage` says where the try block throws,
        if anywhere, and every failure runs EndController and returns `false`. The actuators are
        taken from the coordinates they are attached to, with no lookup by name. Nothing is
        cleared before loading, so a second InitController appends to the labels, weights,
        actuators and indexes EndController keeps: the indexes stay inside the new model only if
        the old ones do, and the names stay in step only if they were before. */
    method InitController(d: IkModelDescription, stage: IkStage) returns (ok: bool)
      requires Valid() && AttachedCoordinatesListed(d)
      modifies this`ready, this`markerIndexes, this`markerLabels, this`markerWeights, this`axisNames
      modifies this`actuators, this`jointNames, this`accelerationIndexes, this`engine, this`forcesOn
      modifies this`coordinateCount, this`muscleCount, this`markerInitialLocations, this`markerSetpointsTable
      modifies this`sampleCapacity, this`phase, this`samples, this`fitted, this`emgInputs
      ensures Valid()
      ensures ok <==> stage.Completes?
      ensures stage.LoadThrows? ==> markerLabels == old(markerLabels) && markerWeights == old(markerWeights)
      ensures !stage.LoadThrows? ==> var labels := ReferenceLabels(d.markerNames);
                && markerLabels == old(markerLabels) + labels && markerWeights == old(markerWeights) + ReferenceWeights(labels)
      ensures stage.LoadThrows? || stage.BuildSystemThrows? ==>
                actuators == old(actuators) && accelerationIndexes == old(accelerationIndexes)
      ensures stage.InitializeStateThrows? || stage.Completes? ==> var kept := JointActuators(d.actuators);
                actuators == old(actuators) + kept && accelerationIndexes == old(accelerationIndexes) + AttachedIndexes(kept)
      ensures !ok ==> && !ready && markerIndexes == [] && jointNames == [] && axisNames == [] && emgInputs == []
                      && phase == old(phase) && samples == old(samples) && fitted == old(fitted)
      ensures ok ==> var labels := ReferenceLabels(d.markerNames);
                     && ready && sampleCapacity == SampleCapacity && emgInputs == old(emgInputs)
                     && Machine() == MachineState(Preprocessing, seq(|d.forcesApply|, _ => false), [], None)
                     && markerIndexes == old(markerIndexes) + ReferenceIndexes(d.markerNames)
                     && axisNames == old(axisNames) + AxisNames(labels)
                     && jointNames == old(jointNames) + AttachedNames(JointActuators(d.actuators))
                     && StateRead(d)
      ensures ok ==> (IndexesInside() <==> forall j | 0 <= j < |old(accelerationIndexes)| :: old(accelerationIndexes)[j] < coordinateCount)
      ensures ok ==> (NamesInLockstep() <==> old(NamesInLockstep()))
    {
      ok := LoadModel(d, stage);
      if !ok {
        EndController();
      }
    }

    /** SetExtraInputsList: the EMG inputs become the first GetExtraInputsNumber() (the number of
        muscles) entries of the host's list. */
    method SetExtraInputsList(inputsList: seq<real>)
      requires ready && muscleCount <= |inputsList|
      modifies this`emgInputs
      ensures emgInputs == inputsList[..muscleCount]
    {
      emgInputs := inputsList[..muscleCount];
    }

    /** The first part of RunControlStep, the same as in the controller without inverse
        kinematics up to the integration: the engine time is reset, the joint measures packed,
        PreProcessSample poses the engine and fills a fresh output vector, and the sample is
        stored in PREPROCESSING or the outputs recomputed by the processor in OPERATION. */
    method AcquireSample(jointMeasures: array<RobotVariables>) returns (inputs: seq<real>, outputs: seq<real>)
      requires Valid() && IndexesInside() && ready && |actuators| <= jointMeasures.Length
      requires ShiftedReadsInside(layout, |emgInputs|, |actuators|, |actuators| * layout.inStride)
      modifies this`engine, this`samples
      ensures SampleAcquired(layout, env.osim, phase, fitted, emgInputs, coordinateCount, accelerationIndexes,
                             old(engine), jointMeasures[..|actuators|], inputs, outputs, engine)
      ensures Machine() == Record(old(Machine()), Sample(emgInputs, inputs, outputs))
    {
      var n := |actuators|;
      engine := engine.(time := 0.0);
      inputs := PackJointInputs(layout, jointMeasures, n);
      var actuatorOutputs := new real[layout.OutSize(n)];
      var posed, accelerations := PreProcessSample(layout, env.osim.inverseDynamics, engine, coordinateCount,
                                                   accelerationIndexes, |emgInputs|, inputs, actuatorOutputs);
      engine := posed;
      outputs := actuatorOutputs[..];
      if phase == Preprocessing {
        samples := samples + [Sample(emgInputs, inputs, outputs)];
      } else if phase == Operation {
        outputs := ProcessorOutputs(env.osim, fitted, emgInputs, inputs, n * layout.outStride);
      }
    }

    /** The second part of RunControlStep: the joints are driven with their measurements and the
        measured force plus the internal torque, the engine integrated, the markers read and their
        set points tabled, the tracked state taken from the inverse-kinematics solver and the joint
        set points read from it. */
    method FollowMarkers(jointMeasures: array<RobotVariables>, axisMeasures: array<RobotVariables>,
                         jointSetpoints: array<RobotVariables>, axisSetpoints: array<RobotVariables>,
                         outputs: seq<real>, timeDelta: real)
      requires Valid() && ready
      requires |actuators| <= jointMeasures.Length && |actuators| <= jointSetpoints.Length
      requires 3 * |markerIndexes| <= axisMeasures.Length && 3 * |markerIndexes| <= axisSetpoints.Length
      requires |outputs| == |actuators| * layout.outStride
      requires SeparateLists(jointMeasures, axisMeasures, jointSetpoints, axisSetpoints)
      modifies this`engine, this`markerSetpointsTable, axisMeasures, jointSetpoints
      ensures MarkersFollowed(layout, env, old(engine), jointMeasures[..|actuators|], outputs, accelerationIndexes, timeDelta,
                              markerIndexes, markerLabels, markerWeights, markerInitialLocations,
                              old(axisMeasures[..]), axisMeasures[..], old(axisSetpoints[..]), markerSetpointsTable, engine,
                              old(jointSetpoints[..]), jointSetpoints[..])
    {
      var n := |actuators|;
      engine := DriveJoints(layout, engine, jointMeasures, outputs, accelerationIndexes, n);
      engine := env.osim.integrate(engine, timeDelta);
      markerSetpointsTable := ReadMarkers(env.markerMotion, engine, markerIndexes, markerInitialLocations, axisMeasures, axisSetpoints);
      engine := env.track(engine, markerLabels, markerSetpointsTable, markerWeights, IkAccuracy);
      SetJointSetpoints(layout, env.coordinateMotion, engine, accelerationIndexes, jointMeasures, outputs, jointSetpoints, n);
    }

    /** RunControlStep: the sample is acquired, as AcquireSample states, and the markers followed
        from the posed state with the resulting outputs, as FollowMarkers states. */
    method RunControlStep(jointMeasures: array<RobotVariables>, axisMeasures: array<RobotVariables>,
                          jointSetpoints: array<RobotVariables>, axisSetpoints: array<RobotVariables>, timeDelta: real)
      returns (inputs: seq<real>, outputs: seq<real>, ghost posed: EngineState)
      requires Valid() && IndexesInside() && ready
      requires |actuators| <= jointMeasures.Length && |actuators| <= jointSetpoints.Length
      requires 3 * |markerIndexes| <= axisMeasures.Length && 3 * |markerIndexes| <= axisSetpoints.Length
      requires SeparateLists(jointMeasures, axisMeasures, jointSetpoints, axisSetpoints)
      requires ShiftedReadsInside(layout, |emgInputs|, |actuators|, |actuators| * layout.inStride)
      modifies this`engine, this`samples, this`markerSetpointsTable, axisMeasures, jointSetpoints
      ensures SampleAcquired(layout, env.osim, phase, fitted, emgInputs, coordinateCount, accelerationIndexes,
                             old(engine), old(jointMeasures[..|actuators|]), inputs, outputs, posed)
      ensures MarkersFollowed(layout, env, posed, old(jointMeasures[..|actuators|]), outputs, accelerationIndexes, timeDelta,
                              markerIndexes, markerLabels, markerWeights, markerInitialLocations,
                              old(axisMeasures[..]), axisMeasures[..], old(axisSetpoints[..]), markerSetpointsTable, engine,
                              old(jointSetpoints[..]), jointSetpoints[..])
      ensures Machine() == Record(old(Machine()), Sample(emgInputs, inputs, outputs))
    {
      inputs, outputs := AcquireSample(jointMeasures);
      posed := engine;
      ghost var acquired := Machine();
      FollowMarkers(jointMeasures, axisMeasures, jointSetpoints, axisSetpoints, outputs, timeDelta);
      assert Machine() == acquired;
    }
  }
}
