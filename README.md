# Robot-Control-OpenSim: a Dafny model of the OpenSim joint controllers

Robot-Control-OpenSim is a plug-in for a robot control host. The host loads it and calls a
fixed C interface:

- `InitController` loads an OpenSim model (`.osim`) of the robot.
- `SetControlState` switches between the control phases PASSIVE, OFFSET, CALIBRATION,
  PREPROCESSING and OPERATION.
- `RunControlStep`, on every tick, takes the measured state of every joint and writes back
  axis measures and joint set points.

An EMG processor sits between the two sides. While PREPROCESSING, each tick stores one sample in
it: the EMG inputs, the packed joint inputs, and the inverse-dynamics torques and stiffnesses. The
change from PREPROCESSING to OPERATION runs an L-BFGS-B fit of the processor's parameters over
those samples. From then on the processor computes the outputs.

This project models three controller variants, one class per variant's controller record:

- `osim_model.cpp`, the joint controller. It is `OsimModel.Controller`, with the sample handling
  it shares with the IK variant in module `Preprocess` and the phase machine in `PhaseMachine`.
- `osim_model-ik.cpp`, the inverse-kinematics (IK) variant.
  - Reference markers drive the axes.
  - IK tracking produces the joint set points.
  - It is `OsimModelIk.IkController`, built from the start-up steps of `IkSetup` and the control
    step of `IkStep`.
- `open_sim_model-legacy.cpp`, the older variant.
  - Its record is heap-allocated and every entry point accepts a NULL handle.
  - It is `LegacyModel.LegacyController` with the module-level entry points of `LegacyModel`,
    and the per-tick work in `LegacyStep`.

What the model represents, and how:

- **Host lists.** The host's joint and axis lists are arrays of `RobotVariables` records. The
  loops over them are `for` loops with invariants.
- **Packed vectors.** The joint inputs and outputs are packed into vectors through a `Layout`.
  It holds the header constants `EMG_POSITION`, …, `EMG_INPUT_VARS_NUMBER`, `EMG_TORQUE_INT`,
  `EMG_STIFFNESS` and `EMG_OUTPUT_VARS_NUMBER`. Their values are not part of this model, so
  everything is proved for every layout whose offsets are distinct and smaller than their stride.
  The legacy variant's `POSITION_VARIABLES_NUMBER` and `FORCE_VARIABLES_NUMBER` are treated the
  same way, as `Strides`.
- **Library code.** OpenSim, the inverse-dynamics and IK solvers, the integrator, the optimizer,
  the EMG processor's computations and the EMG sensors are functions passed in as environments
  (`OsimEnvironment`, `IkEnvironment`, `LegacyEnvironment`). The engine's `SimTK::State` is the
  part of it the controllers write (`EngineState`).
- **Faithfulness.** Where the code does something unusual, the model does it too. Each case is
  stated in a contract:
  - The stiffness is guarded in two variants and not in the legacy one.
  - The packed vector is read past the EMG prefix.
  - The legacy optimizer result is discarded.
  - The torque is read at the joint's index in the solver's result, not at its coordinate index.
  - EndController leaves some lists in place.

## Model

| member | source | states |
|---|---|---|
| ControlCommon.Stiffness | osim_model.cpp:223-232 | when the position error exceeds 1e-6 in magnitude, stiffness times error is the torque; otherwise the stiffness is the sentinel 100.0 |
| ControlCommon.ShiftedReadsNeedNoPrefix | osim_model.cpp:207-216 | for a layout whose largest field uses the last slot of the stride, PreProcessSample's reads at offset `emgInputs.size()` stay inside the `n * EMG_INPUT_VARS_NUMBER` input vector exactly when there are no EMG inputs |
| ControlCommon.JointActuatorsExact | osim_model-ik.cpp:78-93 | the kept actuators are exactly those that are not muscles and are coordinate actuators, and there are no more of them than actuators |
| ControlCommon.JointActuatorsOfPrefix | osim_model-ik.cpp:78-93 | classifying a prefix of the actuator set keeps a prefix of what classifying the whole set keeps |
| ControlCommon.MusclesExact | open_sim_model-legacy.cpp:61-72 | the muscles listed are exactly the actuators in the muscle set, and there are no more of them than actuators |
| ControlCommon.MusclesAndJointsPartition | open_sim_model-legacy.cpp:61-81 | when every non-muscle is a coordinate actuator, the muscles and the joint actuators together account for the whole actuator set |
| ControlCommon.IndexOf | osim_model.cpp:72-78 | the lookup by name returns the first index holding the name, and returns None exactly when the name is absent |
| Strings.FindFrom | osim_model-ik.cpp:60 | `find` from a position returns the first match at or after it, or npos (None) when no match follows |
| Strings.FindDecidesContains | osim_model-ik.cpp:60 | `find(...) != npos` holds exactly when the name contains the pattern, and the position found is its first occurrence |
| PhaseMachine.Transition | osim_model.cpp:142-196 | the phase becomes the request; every force is on exactly on the PREPROCESSING-to-OPERATION change; PREPROCESSING empties the store; the fit sets the parameters to the optimizer's result over the stored samples, and nothing else changes them |
| PhaseMachine.Record | osim_model.cpp:262-263 | a control step stores its sample only in PREPROCESSING and changes nothing else |
| PhaseMachine.RecordAllStores | osim_model.cpp:262-263 | a run of control steps grows the store by exactly its samples in PREPROCESSING, and otherwise changes nothing |
| PhaseMachine.FitUsesPreprocessedSamples | osim_model.cpp:162-191 | entering PREPROCESSING, running steps, then requesting OPERATION fits to exactly those steps' samples, gives as many parameters as the initial vector, and turns every force on |
| PhaseMachine.OperationWithoutPreprocessing | osim_model.cpp:169-191 | OPERATION requested from any other phase leaves the forces off and the parameters and store unchanged |
| PhaseMachine.EnterPreprocessing | osim_model.cpp:146-166 | PREPROCESSING turns every force off, empties the store and keeps the parameters |
| PhaseMachine.PreprocessingIdempotent | osim_model.cpp:162-166 | requesting PREPROCESSING twice leaves the same state as requesting it once |
| PhaseMachine.ParametersChangeOnlyByFit | osim_model.cpp:169-191 | the parameters change only on the PREPROCESSING-to-OPERATION change, and then to a vector as long as the initial parameters |
| PhaseMachine.NoRefitWithoutPreprocessing | osim_model.cpp:169-195 | after any request other than PREPROCESSING, a following OPERATION request fits nothing |
| Preprocess.WithJointInputsKeeps | osim_model.cpp:250-258 | writing the five input slots of joint j keeps every other joint's slots packed |
| Preprocess.PackedPrefixStep | osim_model.cpp:250-258 | packing joint j after joints 0..j-1 leaves joints 0..j packed |
| Preprocess.WriteJointInputs | osim_model.cpp:252-257 | one turn of the packing loop writes position, velocity, acceleration, the acceleration again as setpoint, and the external torque into joint j's slots |
| Preprocess.PackJointInputs | osim_model.cpp:248-258 | the input vector has `n * EMG_INPUT_VARS_NUMBER` entries and each joint's slots hold its measurement |
| Preprocess.WriteJointOutputs | osim_model.cpp:229-231 | one turn of the output loop writes the torque and stiffness slots of joint j |
| Preprocess.OutputsWrittenStep | osim_model.cpp:223-232 | each turn of the output loop writes one more joint and leaves every non-output slot as it was |
| Preprocess.PoseEngine | osim_model.cpp:203-216 | the first loop of PreProcessSample sets each joint's coordinate value and speed and its actuator's overriding actuation from the inputs read past the EMG prefix, and builds the acceleration targets |
| Preprocess.WriteOutputs | osim_model.cpp:223-232 | after a successful solve, joint j's torque slot holds the solver's force j and its stiffness slot the guarded stiffness from setpoint minus position; other entries are kept |
| Preprocess.PreProcessSample | osim_model.cpp:199-242 | the engine is posed and the targets built as above; when the solve throws, the output vector is unchanged; otherwise its joint slots are written |
| Preprocess.PoseHoldsJointInputs | osim_model.cpp:204-215 | when the joints drive distinct coordinates, the posed state holds exactly joint j's value, speed and actuation, as read from the inputs |
| Preprocess.TargetsHoldJointInputs | osim_model.cpp:203-211 | when the joints drive distinct coordinates, the acceleration target of joint j's coordinate is joint j's input acceleration |
| Preprocess.UndrivenCoordinatesStill | osim_model.cpp:203 | a coordinate that no joint drives gets acceleration target 0.0 |
| OsimModel.CopyAxisValues | osim_model.cpp:274-288 | the first n axis measures take the packed kinematics and the two output slots of their joint; the joint set points take position, velocity, acceleration and force from the axis set points; all other entries are unchanged |
| OsimModel.ClassifySucceedsIff | osim_model.cpp:58-81 | the actuator loop runs to the end exactly when every joint actuator's name is a coordinate name (a failed lookup throws) |
| OsimModel.ClassifyKeepsJointActuators | osim_model.cpp:58-81 | the loop keeps a prefix of the joint actuators in order, and all of them when it completes |
| OsimModel.ClassifyLooksUpOwnName | osim_model.cpp:72-78 | each kept actuator is paired with its own name as coordinate name and the index of that name in the coordinate set |
| OsimModel.ClassifyInLockstep | osim_model.cpp:75-78 | the actuator, name and index lists grow together and every index lies inside the coordinate set |
| OsimModel.ClassifyStops | osim_model.cpp:73 | once a lookup has failed, the later actuators change nothing |
| OsimModel.ClassifyActuators | osim_model.cpp:58-81 | the loop computes the classification `Classify` defines, stopping at the first failed lookup |
| OsimModel.Controller.constructor | osim_model.cpp:18-30 | the zero-initialised global record: not ready, PASSIVE, every list empty |
| OsimModel.Controller.SwitchAllForces | osim_model.cpp:146-152 | every force's appliesForce is set to the given value and the force count is kept |
| OsimModel.Controller.SetControlState | osim_model.cpp:142-196 | the phase machine moves as `PhaseMachine.Transition`, with the processor's initial parameters and the optimizer |
| OsimModel.Controller.EndController | osim_model.cpp:113-121 | the model is gone and the joint names, axis names and EMG inputs are cleared; the actuator and index lists are left as they are, so the names stay in lockstep with the actuators exactly when there are none |
| OsimModel.Controller.LoadModel | osim_model.cpp:41-81 | the state, forces, coordinate count and muscle count come from the model; the classification's actuators, names and indexes are appended to the lists already there, and every appended index lies inside the coordinate set |
| OsimModel.Controller.StartProcessor | osim_model.cpp:83-85 | a new processor with capacity 1000 and an empty store; the PREPROCESSING request leaves every force off and the record ready |
| OsimModel.Controller.InitController | osim_model.cpp:36-111 | returns false on a load failure (lists unchanged) or a failed coordinate lookup, ending the controller with phase and store kept; otherwise true in PREPROCESSING with every force off and an empty store; the classified joints are appended to what an earlier EndController left, so the indexes stay inside the coordinate set, and the names in lockstep with the actuators, exactly when the earlier entries did |
| OsimModel.Controller.SetExtraInputsList | osim_model.cpp:133-136 | the EMG inputs become the host list's first muscle-count entries |
| OsimModel.Controller.ProcessSample | osim_model.cpp:244-272 | the time is reset, the inputs packed, the outputs are the solved torques and stiffnesses (or the processor's outputs in OPERATION), the sample is stored in PREPROCESSING, and the state becomes the integrator's result over the time step, taken to start from the posed state |
| OsimModel.Controller.RunControlStep | osim_model.cpp:244-291 | ProcessSample's effect, then the axis measures and joint set points of CopyAxisValues; entries past the joint count are untouched |
| IkSetup.ReferenceIndexesExact | osim_model-ik.cpp:57-72 | the reference markers are exactly the markers whose name contains "_ref", each once, in marker-set order |
| IkSetup.AxisNamesLayout | osim_model-ik.cpp:66-70 | there are three axis names per reference marker, and name 3m+a is marker m's name followed by "_x", "_y" or "_z" |
| IkSetup.SelectReferenceMarkers | osim_model-ik.cpp:57-72 | the marker loop computes `ReferenceIndexes`, `ReferenceLabels`, `ReferenceWeights` and `AxisNames` of the marker names |
| IkSetup.ReferenceLabelsExact | osim_model-ik.cpp:57-72 | label m is the name of the marker at index m of the reference indexes, and that index lies inside the marker set |
| IkSetup.CollectJointActuators | osim_model-ik.cpp:78-93 | the loop computes `JointActuators` of the actuator set, each kept actuator's attached coordinate name and that coordinate's index in the coordinate set |
| IkSetup.ZeroJointCoordinates | osim_model-ik.cpp:102-110 | every joint's coordinate gets value 0.0; every other value, the speeds, the actuations and the time are kept |
| IkSetup.InitialMarkerLocations | osim_model-ik.cpp:112-119 | each reference marker's initial location is its location in ground at the initialized state |
| IkStep.DrivenJointsHold | osim_model-ik.cpp:304-312 | each driven joint's actuation is its measured force plus its internal torque; with distinct coordinates, each coordinate holds its joint's measured position and velocity |
| IkStep.DriveJoints | osim_model-ik.cpp:304-312 | the driving loop computes the state `DrivenJoints` describes |
| IkStep.ReadMarkers | osim_model-ik.cpp:321-335 | axis 3m+a reports component a of marker m's location, velocity and acceleration; table entry m is marker m's initial location plus its three axis position set points; later axes are untouched |
| IkStep.TrackedSetpoint | osim_model-ik.cpp:344-353 | position, velocity and acceleration are the tracked coordinate's value, speed and acceleration; the force is tracked minus measured position minus the internal torque; the stiffness is kept |
| IkStep.SetJointSetpoints | osim_model-ik.cpp:344-353 | joint set point j follows the tracked coordinate of joint j, and entries past the joint count are untouched |
| OsimModelIk.IkController.constructor | osim_model-ik.cpp:19-38 | the zero-initialised global record: not ready, PASSIVE, every list empty |
| OsimModelIk.IkController.SwitchAllForces | osim_model-ik.cpp:184-190 | every force's appliesForce is set to the given value and the force count is kept |
| OsimModelIk.IkController.SetControlState | osim_model-ik.cpp:180-233 | the phase machine moves as `PhaseMachine.Transition` |
| OsimModelIk.IkController.EndController | osim_model-ik.cpp:149-159 | the reference markers, joint names, axis names and EMG inputs are cleared and the controller is not ready; the names stay in lockstep with the actuators exactly when there are none |
| OsimModelIk.IkController.SelectMarkers | osim_model-ik.cpp:57-72 | the reference markers' indexes, labels, weights and axis names are appended to the lists already there |
| OsimModelIk.IkController.CollectJoints | osim_model-ik.cpp:78-93 | the joint actuators, their coordinate names and coordinate-set indexes are appended to the lists already there |
| OsimModelIk.IkController.InitializeState | osim_model-ik.cpp:95-110 | the state is the initialized state with the coordinate of every listed joint, old and new, set to 0.0; forces and counts come from the model |
| OsimModelIk.IkController.LocateMarkers | osim_model-ik.cpp:112-119 | each reference marker's initial location is its location in ground at the state; the set-point table has one entry per marker |
| OsimModelIk.IkController.StartProcessor | osim_model-ik.cpp:121-123 | the processor is created with capacity 1000 and the PREPROCESSING request leaves every force off and the store empty |
| OsimModelIk.IkController.LoadJoints | osim_model-ik.cpp:78-123 | the joints are appended; a throw at `initializeState` returns false with phase and store kept; otherwise the state is read, the processor started, and the indexes stay inside the coordinate set exactly when the earlier ones did |
| OsimModelIk.IkController.LoadModel | osim_model-ik.cpp:50-124 | the try block: true exactly when no step throws; a throw at loading keeps every list, one at `buildSystem` keeps the markers appended, one at `initializeState` keeps markers and joints appended, with phase and store kept; on success the state is read and the record is ready in PREPROCESSING with every force off and an empty store |
| OsimModelIk.IkController.InitController | osim_model-ik.cpp:46-147 | returns true exactly when no step throws; the lists grow as far as the try block got, and a failure ends the controller with phase and store kept; success is in PREPROCESSING with every force off, an empty store and the state read; the indexes stay inside the coordinate set, and the names in lockstep, exactly when the earlier entries did |
| OsimModelIk.IkController.SetExtraInputsList | osim_model-ik.cpp:171-174 | the EMG inputs become the host list's first muscle-count entries |
| OsimModelIk.IkController.AcquireSample | osim_model-ik.cpp:283-302 | the sample handling both OpenSim variants share, as `Preprocess.SampleAcquired`, with the sample stored in PREPROCESSING |
| OsimModelIk.IkController.FollowMarkers | osim_model-ik.cpp:304-353 | joints driven, the state integrated, markers reported and tabled, the state tracked by the IK solver with accuracy 1e-4, and joint set points taken from it, as `IkStep.MarkersFollowed` |
| OsimModelIk.IkController.RunControlStep | osim_model-ik.cpp:281-354 | AcquireSample's effect, then FollowMarkers' from the posed state with the resulting outputs |
| LegacyStep.LegacyStiffness | open_sim_model-legacy.cpp:292-293 | for a nonzero torque, stiffness times torque times torque is the position error; for a zero torque it is the unknown floating-point quotient |
| LegacyStep.LegacyPoseHolds | open_sim_model-legacy.cpp:269-276 | each posed joint's actuator carries its measured force; with distinct coordinates, each coordinate holds its joint's measured position and velocity |
| LegacyStep.PoseMeasuredJoints | open_sim_model-legacy.cpp:267-276 | the first joint loop computes `LegacyPose`, and the acceleration list holds each joint's measured acceleration by joint index |
| LegacyStep.ForcesWrittenStep | open_sim_model-legacy.cpp:288-294 | each turn of the force loop writes one more joint's two slots and keeps every other slot |
| LegacyStep.WriteForceOutputs | open_sim_model-legacy.cpp:288-294 | slot 0 of each joint's force block holds its inverse-dynamics torque and slot 1 the unguarded stiffness; every other slot is unchanged |
| LegacyStep.NewForceOutputs | open_sim_model-legacy.cpp:288-294 | a fresh `n * FORCE_VARIABLES_NUMBER` vector with the force loop's writes over whatever the fresh vector held |
| LegacyStep.ReportAxes | open_sim_model-legacy.cpp:301-309 | axis j reports the value, speed and acceleration of its joint's coordinate and the two slots of its force block; later axes are untouched |
| LegacyStep.CopySetpoints | open_sim_model-legacy.cpp:311-317 | the joint set points take position, velocity, acceleration and force from the axis set points; later entries are untouched |
| LegacyModel.SensorPhaseOnlyForCalibrationPhases | open_sim_model-legacy.cpp:209-224 | OFFSET and CALIBRATION select their own sensor phases, and every other control phase selects MEASUREMENT |
| LegacyModel.SplitActuators | open_sim_model-legacy.cpp:61-81 | each muscle adds a sensor loaded from "sensors/emg/" plus its name; each other actuator is kept, with its coordinate's name as joint and axis name and a true changed flag |
| LegacyModel.SplitSharesActuators | open_sim_model-legacy.cpp:61-81 | every muscle has its sensor and every other actuator is a joint, and the two counts add up to the actuator count |
| LegacyModel.LegacyTransition | open_sim_model-legacy.cpp:201-256 | the request becomes the phase; the force and sensor counts are kept; PREPROCESSING empties the store and any other request keeps it |
| LegacyModel.LegacyAgreesWithTransition | open_sim_model-legacy.cpp:201-256 | the legacy phase machine is `PhaseMachine.Transition` started from 5 x muscles ones, with the discarded result in place of the parameters |
| LegacyModel.EverySensorInPhase | open_sim_model-legacy.cpp:250-253 | after any request every sensor has the request's sensor phase and keeps its configuration |
| LegacyModel.ForcesOnlyAfterFit | open_sim_model-legacy.cpp:232-248 | forces are on exactly after the PREPROCESSING-to-OPERATION change, where the optimizer runs from 5 x muscles ones over the stored samples |
| LegacyModel.LegacyPreprocessingResets | open_sim_model-legacy.cpp:225-229 | PREPROCESSING empties the store and is idempotent |
| LegacyModel.PassiveIgnoresProcessorAndPhase | open_sim_model-legacy.cpp:84 | the PASSIVE request made before the processor exists does not reach it and does not depend on the record's uninitialised phase |
| LegacyModel.LegacyController.constructor | open_sim_model-legacy.cpp:42 | the fresh record: not ready, no processor, no sensors, no actuators, an empty store |
| LegacyModel.LegacyController.SwitchAllForces | open_sim_model-legacy.cpp:211-213 | every force's appliesForce is set to the given value and the force count is kept |
| LegacyModel.LegacyController.SetSensorPhases | open_sim_model-legacy.cpp:250-253 | every sensor gets the given phase |
| LegacyModel.LegacyController.ApplyControlState | open_sim_model-legacy.cpp:205-255 | the record moves as `LegacyTransition` |
| LegacyModel.LegacyController.Release | open_sim_model-legacy.cpp:127-145 | the name lists, the changed flags and the sensors are cleared and the record is not ready |
| LegacyModel.LegacyController.LoadModel | open_sim_model-legacy.cpp:47-81 | the state, forces and muscle count come from the model and the actuators are split as `SplitActuators` |
| LegacyModel.LegacyController.StartProcessor | open_sim_model-legacy.cpp:86-97 | the processor has 5 x muscles parameters, capacity 1000 and limits 0.8 and 1.2 on each parameter; the store is empty and the state's time is 0 |
| LegacyModel.LegacyController.Initialise | open_sim_model-legacy.cpp:47-97 | the record is `Started`: split actuators, PASSIVE, every force off, every sensor in MEASUREMENT, the processor created |
| LegacyModel.LegacyController.ProcessTick | open_sim_model-legacy.cpp:262-299 | the sensor readings, the pose, the integration from time 0, the force vector after the solve (in OPERATION, what CalculateTorques is taken to leave in it), and the sample stored in PREPROCESSING, as `TickComputed` |
| LegacyModel.LegacyController.ControlStep | open_sim_model-legacy.cpp:262-317 | ProcessTick's effect, then the axis report and the set-point copy |
| LegacyModel.InitController | open_sim_model-legacy.cpp:38-123 | returns NULL exactly when some step of the try block (:47-97) throws, after ending the record; otherwise a fresh started record |
| LegacyModel.EndController | open_sim_model-legacy.cpp:125-145 | nothing for a NULL handle; otherwise the lists and sensors are cleared and the phase, forces, state, actuators and store are kept |
| LegacyModel.GetJointsNumber | open_sim_model-legacy.cpp:147-154 | 0 for a NULL handle, otherwise the number of joint names |
| LegacyModel.GetJointNamesList | open_sim_model-legacy.cpp:156-163 | NULL exactly for a NULL handle, and otherwise a list of `GetJointsNumber` names |
| LegacyModel.GetJointsChangedList | open_sim_model-legacy.cpp:165-172 | NULL exactly for a NULL handle, and otherwise one flag per joint |
| LegacyModel.GetAxesNumber | open_sim_model-legacy.cpp:174-181 | 0 for a NULL handle, otherwise as many axes as joints |
| LegacyModel.GetAxisNamesList | open_sim_model-legacy.cpp:183-190 | NULL exactly for a NULL handle, and otherwise a list of `GetAxesNumber` names |
| LegacyModel.GetAxesChangedList | open_sim_model-legacy.cpp:192-199 | the same result as `GetJointsChangedList` |
| LegacyModel.NullHandleYieldsNothing | open_sim_model-legacy.cpp:147-199 | a NULL handle gives 0 joints and axes and NULL lists |
| LegacyModel.GettersAgree | open_sim_model-legacy.cpp:147-199 | for a live handle the counts match the lists, joints and axes agree, and both changed lists are the same flags |
| LegacyModel.StartedGetters | open_sim_model-legacy.cpp:74-80 | after InitController every joint is reported changed and named by the coordinate it drives |
| LegacyModel.SetControlState | open_sim_model-legacy.cpp:201-256 | nothing for a NULL handle; otherwise `LegacyTransition`, with everything else kept |
| LegacyModel.RunControlStep | open_sim_model-legacy.cpp:258-321 | nothing for a NULL handle; otherwise ControlStep's effect with the phase, forces, actuators, sensors and name lists kept |

## Left out

- OpenSim itself (model loading, `initSystem`/`initializeState`, the solvers, the integrator, marker and coordinate kinematics) is not modelled. Each is a function passed in as an environment. The loaded model is a `ModelDescription` value, and the solvers and kinematics are applied to the modelled engine state.
- The default build integrates with `controller.state = manager.integrate( timeDelta )` (`osim_model.cpp:267-271`, `osim_model-ik.cpp:314-318`), which is not handed `controller.state`. The model assumes the integration starts from the posed state, as `env.integrate(posed, timeDelta)`. Whatever state OpenSim's `Manager` actually starts from is not captured.
- The L-BFGS-B search, the EMG processor's objective, `StoreSamples`' own bookkeeping and `CalculateOutputs`/`CalculateTorques` are not modelled. They are functions in the environment, and the store is the list of samples handed to it.
- Logging to `std::cout` is left out, along with the legacy `cout` at `open_sim_model-legacy.cpp:320`, which reads joints 0 and 1 whatever the joint count.
- Data I/O and the EMG sensors' own behaviour are left out, and so are `Sensors.End` and `Sensors.Update`; the readings `Update` produces are a parameter of the legacy step. The sensors' phase changes (`open_sim_model-legacy.cpp:252-253`) are modelled by `SetSensorPhases`, and the configuration path each sensor is loaded from (`open_sim_model-legacy.cpp:68-70`) by `SensorFor`.
- Floating point is modelled by exact reals, so rounding, NaN and infinity are not captured.
- LegacyStep.LegacyStiffness: a quotient by a zero torque is an unconstrained value from the environment rather than IEEE infinity or NaN.
- The muscle-disable loop (`setAppliesForce(false)` on every muscle) and the `overrideActuation(true)` flags are not modelled. `setGravity`, `setUseVisualizer` and `printBasicInfo` are not modelled either. None of them is read back by the controllers.
- The getters of the two OpenSim variants (`GetJointsNumber`, `GetJointNamesList`, `GetAxesNumber`, `GetAxisNamesList`, `GetExtraInputsNumber`) have no members of their own; the legacy ones are modelled. They return `jointNames`, `axisNames` and `muscleCount`, which the classes expose as fields.
- `GetExtraOutputsList` is empty and is not modelled.
- The `char*` names taken from `c_str()` of strings that die at once (a dangling pointer in the source) are modelled as the strings themselves.
- The IK variant's `markers` set is modelled as marker indexes, and the lifetime of those pointers is left out. It adopts markers the model owns (`osim_model-ik.cpp:64`), so `markers.clearAndDestroy()` in EndController (`osim_model-ik.cpp:151`) frees them and `delete controller.osimModel` (`osim_model-ik.cpp:153`) frees them again. This double free is not modelled.
- IK InitController's failure points are the `IkStage` parameter: the model load throwing, `buildSystem` throwing (`osim_model-ik.cpp:77`) after the marker loop, `initializeState` throwing (`osim_model-ik.cpp:95`) after the actuator loop, or no throw. Other throws in the try block (solver or kinematics errors) are not modelled.
- Neither OpenSim variant's EndController clears the actuator and acceleration-index lists, and the IK one keeps the marker labels and weights too, so a second InitController appends to them. The model does the same, and InitController's contract says the names then stay in lockstep with the actuators only if they did before. After such a re-init the actuator list holds pointers into the deleted model. The model reads each old entry by its coordinate index in the new model instead. The grown actuator list makes RunControlStep read the host lists past the joint count the host was told; the model requires the host lists to be that long.
- `osim_model.cpp:72-74` attaches each actuator to a coordinate of a local `CoordinateSet` copy, which is destroyed at the end of the block, so the later `getCoordinate()` (`osim_model.cpp:206`) follows a dangling pointer. The model reads it as the model's coordinate at the index looked up at `osim_model.cpp:78`.
- Deleting the legacy record and its sub-objects is left out. So is EndController on a record whose construction failed half-way (`model` None runs Release on the fresh record).
- `markerSetpoints` at `osim_model-ik.cpp:321` is an empty `std::vector` indexed without a resize. The model takes it as a three-entry vector per marker, which is what its use intends.
- `markerSetpointsTable.resize( 1, n )` (`osim_model-ik.cpp:113`) leaves the new entries undefined. The model sets them to zeros. Each control step overwrites every entry (`osim_model-ik.cpp:333`) before the table is used.
- Preprocess.SampleAcquired and the RunControlStep members require `ShiftedReadsInside`. PreProcessSample reads the joint inputs at `emgInputs.size() + j * EMG_INPUT_VARS_NUMBER`, in a vector that holds no EMG prefix, and the model requires those reads to stay inside. ControlCommon.ShiftedReadsNeedNoPrefix shows this holds only when there are no EMG inputs, for a layout using its whole stride.
- Preprocess.ProcessorOutputs: the vector `CalculateOutputs` returns is taken to have as many entries as the output vector it replaces.
- The host's lists are required to be four distinct arrays (`SeparateLists`), so aliasing between them is not modelled.
- IkSetup.AttachedCoordinatesListed: the coordinate an IK joint actuator is attached to is required to belong to the coordinate set.
- LegacyModel.NonMusclesDriveCoordinates: every non-muscle actuator is required to be a coordinate actuator. The legacy code casts without a check (`open_sim_model-legacy.cpp:75`) and would follow a null pointer otherwise.
- LegacyModel.LegacyController.constructor: the phase of a `new ControlData` is indeterminate in the source. The model starts it at PASSIVE, and `LegacyModel.PassiveIgnoresProcessorAndPhase` shows the first request does not read it.
- Both OpenSim variants request PREPROCESSING at the end of InitController, where a comment says PASSIVE (`osim_model.cpp:85`, `osim_model-ik.cpp:123`). The model follows the code.
- `osim_model.cpp` includes `emg_optimizer-nn.h` unless `USE_NN` is defined, and that header is not part of this model. The processor is modelled through the interface the code calls (`StoreSamples`, `CalculateOutputs`, `SetParameters`, `GetInitialParameters`, `ResetSamplesStorage`).
- `emg_optimizer-osim.h` declares `CalculateTorques` but not `CalculateOutputs` or `SetParameters`, which the code calls. The declared signatures are not checked against the calls.
- The solve's result is read at the joint's index (`idForcesList[jointIndex]`), while `jointTorqueIndex` is only printed. The model reads the result the same way and does not judge which index OpenSim intends.
- OsimModel.Controller.InitController: throws after the actuator loop are not modelled, in particular one from the processor constructor `new EMGOptimizerImpl(...)` (`osim_model.cpp:83`). In the source such a throw ends the controller and returns false after the whole classification has been appended; the model returns true whenever the model loads and every coordinate lookup succeeds.
- LegacyModel.LegacyController.ProcessTick: `EMGOptimizerSystem::CalculateTorques` (`open_sim_model-legacy.cpp:299`) is called for its effect and its return value is discarded. Its header is not part of this model, so the call is assumed to leave its result in `forceOutputs`, and that result is the environment's `calculateTorques`, constrained only to keep the vector's size. The `CalculateTorques` declared in `emg_optimizer-osim.h:15` takes the vector by value and returns a new one; under that signature `forceOutputs` would keep the written vector, a case that function also covers.
- The legacy inverse-dynamics solve is total (the legacy step has no `try`), so a throwing solve there is not modelled.
- The legacy `positionInputs` vector is created with a size and never written. It is modelled as the unconstrained blank vector of that size.
- LegacyModel.LegacyController.ApplyControlState: the optimizer's result in the legacy variant is discarded by the code (`open_sim_model-legacy.cpp:243`). It is kept only in the ghost field `lastRun`, which no behaviour reads.
- The `OSIM_LEGACY` branches (`setOverrideForce`, `setDisabled`, `manager.integrate(state, dt)`, `getSimbodyEngine().getPosition`) are not modelled. The model follows the default build.
