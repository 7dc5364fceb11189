/** The control-phase machine of osim_model.cpp and osim_model-ik.cpp (their SetControlState is
    the same code), and the sample recording of RunControlStep, as a function on the part of the
    controller's state they touch. */
module PhaseMachine {
  import opened ControlCommon

  /** The phase, whether each force of the model applies, the samples handed to the EMG
      processor's store since its last reset, and the parameters last set on it (None until the
      first fit). */
  datatype MachineState = MachineState(phase: Phase, forcesOn: seq<bool>, samples: seq<Sample>, fitted: Option<seq<real>>)

  /** SetControlState(requested): every force is switched off; a request for PREPROCESSING resets
      the sample store; the PREPROCESSING to OPERATION change runs the optimizer from `initial`
      over the stored samples, sets the result as the processor's parameters and switches every
      force back on; the requested phase is recorded. */
  function Transition(s: MachineState, requested: Phase, fit: Fitter, initial: seq<real>): (r: MachineState)
    ensures r.phase == requested
    ensures |r.forcesOn| == |s.forcesOn|
    ensures forall i | 0 <= i < |r.forcesOn| :: r.forcesOn[i] <==> IsFitEdge(s.phase, requested)
    ensures r.samples == (if requested == Preprocessing then [] else s.samples)
    ensures IsFitEdge(s.phase, requested) ==> r.fitted == Some(fit(FitSettings, s.samples, initial))
    ensures !IsFitEdge(s.phase, requested) ==> r.fitted == s.fitted
  {
    var edge := IsFitEdge(s.phase, requested);
    MachineState(requested, seq(|s.forcesOn|, _ => edge),
                 if requested == Preprocessing then [] else s.samples,
                 if edge then Some(fit(FitSettings, s.samples, initial)) else s.fitted)
  }

  /** One RunControlStep's effect on the store: the sample is stored only in PREPROCESSING. */
  function Record(s: MachineState, sample: Sample): (r: MachineState)
    ensures r.phase == s.phase && r.forcesOn == s.forcesOn && r.fitted == s.fitted
    ensures s.phase == Preprocessing ==> r.samples == s.samples + [sample]
    ensures s.phase != Preprocessing ==> r == s
  {
    if s.phase == Preprocessing then s.(samples := s.samples + [sample]) else s
  }

  /** A run of control steps, oldest sample first. */
  function RecordAll(s: MachineState, xs: seq<Sample>): MachineState
    decreases |xs|
  {
    if xs == [] then s else RecordAll(Record(s, xs[0]), xs[1..])
  }

  /** Control steps change nothing but the store, and grow it by exactly their samples while
      preprocessing. */
  lemma {:induction false} RecordAllStores(s: MachineState, xs: seq<Sample>)
    ensures var r := RecordAll(s, xs);
            r.phase == s.phase && r.forcesOn == s.forcesOn && r.fitted == s.fitted
    ensures s.phase == Preprocessing ==> RecordAll(s, xs).samples == s.samples + xs
    ensures s.phase != Preprocessing ==> RecordAll(s, xs) == s
    decreases |xs|
  {
    if xs != [] {
      RecordAllStores(Record(s, xs[0]), xs[1..]);
      assert s.samples + [xs[0]] + xs[1..] == s.samples + xs;
    }
  }

  /** The whole calibration protocol: entering PREPROCESSING, running control steps and then
      requesting OPERATION fits the parameters to exactly the samples of those steps and
      switches every force on. */
  lemma FitUsesPreprocessedSamples(s: MachineState, xs: seq<Sample>, fit: Fitter, initial: seq<real>)
    ensures var r := Transition(RecordAll(Transition(s, Preprocessing, fit, initial), xs), Operation, fit, initial);
            && r.phase == Operation
            && r.fitted == Some(fit(FitSettings, xs, initial))
            && |r.fitted.value| == |initial|
            && |r.forcesOn| == |s.forcesOn| && forall i | 0 <= i < |r.forcesOn| :: r.forcesOn[i]
  {
    var p := Transition(s, Preprocessing, fit, initial);
    RecordAllStores(p, xs);
    assert [] + xs == xs;
  }

  /** Requesting OPERATION from any phase other than PREPROCESSING leaves every force off and the
      parameters as they were. */
  lemma OperationWithoutPreprocessing(s: MachineState, fit: Fitter, initial: seq<real>)
    requires s.phase != Preprocessing
    ensures var r := Transition(s, Operation, fit, initial);
            && r.fitted == s.fitted && r.samples == s.samples
            && forall i | 0 <= i < |r.forcesOn| :: !r.forcesOn[i]
  {
  }

  /** Entering PREPROCESSING: every force off, an empty store, the parameters untouched. */
  lemma EnterPreprocessing(s: MachineState, fit: Fitter, initial: seq<real>)
    ensures Transition(s, Preprocessing, fit, initial) == MachineState(Preprocessing, seq(|s.forcesOn|, _ => false), [], s.fitted)
  {
  }

  /** Asking for PREPROCESSING twice is the same as asking once. */
  lemma PreprocessingIdempotent(s: MachineState, fit: Fitter, initial: seq<real>)
    ensures var once := Transition(s, Preprocessing, fit, initial);
            Transition(once, Preprocessing, fit, initial) == once
  {
  }

  /** The parameters change in exactly one way: a fit, which happens on the
      PREPROCESSING-to-OPERATION change only and yields as many parameters as the starting vector. */
  lemma ParametersChangeOnlyByFit(s: MachineState, requested: Phase, fit: Fitter, initial: seq<real>)
    ensures var r := Transition(s, requested, fit, initial);
            r.fitted != s.fitted ==> IsFitEdge(s.phase, requested) && r.fitted.Some? && |r.fitted.value| == |initial|
  {
  }

  /** A fit needs a fresh entry into PREPROCESSING: once the controller is in OPERATION, asking for
      OPERATION again, or going through a calibration phase first, fits nothing. */
  lemma NoRefitWithoutPreprocessing(s: MachineState, other: Phase, fit: Fitter, initial: seq<real>)
    requires other != Preprocessing
    ensures var mid := Transition(s, other, fit, initial);
            Transition(mid, Operation, fit, initial).fitted == mid.fitted
  {
  }
}
