/** The ISR task of the calibration test pipelines: which of its declared
    connection slots survive for a configuration, and which units of work
    (quanta) it admits. */
module Isr {
  import Ascii
  import Pipeline

  // ---------------------------------------------------------------------
  // Declared slots

  /** The connection slots of the ISR task, one per declared attribute. */
  datatype Slot =
    | CcdExposure | Camera | Crosstalk | CrosstalkSources | Bias | Dark | Flat | Ptc
    | Fringes | StrayLightData | BfKernel | NewBFKernel | Defects | Linearizer
    | OpticsTransmission | FilterTransmission | SensorTransmission
    | AtmosphereTransmission | IllumMaskedImage
    | OutputExposure | PreInterpExposure | OutputOssThumbnail | OutputFlattenedThumbnail

  /** Every regular input slot the connections class declares. */
  const DeclaredInputs: set<Slot> := {
    CcdExposure, Crosstalk, CrosstalkSources, Bias, Dark, Flat, Ptc,
    Fringes, StrayLightData, BfKernel, NewBFKernel, Defects, Linearizer,
    OpticsTransmission, FilterTransmission, SensorTransmission,
    AtmosphereTransmission, IllumMaskedImage
  }

  /** The camera is the one prerequisite input. */
  const DeclaredPrerequisites: set<Slot> := {Camera}

  /** Every output slot the connections class declares. */
  const DeclaredOutputs: set<Slot> := {
    OutputExposure, PreInterpExposure, OutputOssThumbnail, OutputFlattenedThumbnail
  }

  /** Whether a slot is one of the declared outputs. */
  predicate IsOutput(slot: Slot) {
    slot == OutputExposure || slot == PreInterpExposure ||
    slot == OutputOssThumbnail || slot == OutputFlattenedThumbnail
  }

  /** Whether a slot is a regular input: neither an output nor the camera. */
  predicate IsRegularInput(slot: Slot) {
    !IsOutput(slot) && slot != Camera
  }

  /** The declared sets split the slot enumeration by kind. */
  lemma DeclaredSlots()
    ensures forall s :: s in DeclaredInputs <==> IsRegularInput(s)
    ensures forall s :: s in DeclaredOutputs <==> IsOutput(s)
  {
  }

  const TransmissionSlots: set<Slot> := {
    OpticsTransmission, FilterTransmission, SensorTransmission, AtmosphereTransmission
  }

  // ---------------------------------------------------------------------
  // Configuration

  datatype QaConfig = QaConfig(doThumbnailOss: bool, doThumbnailFlattened: bool)

  /** The configuration fields the ISR connections and admission filter read. */
  datatype IsrConfig = IsrConfig(
    doBias: bool,
    doLinearize: bool,
    doCrosstalk: bool,
    doBrighterFatter: bool,
    doDefect: bool,
    doDark: bool,
    doFlat: bool,
    doFringe: bool,
    doStrayLight: bool,
    usePtcGains: bool,
    usePtcReadNoise: bool,
    doAttachTransmissionCurve: bool,
    doUseOpticsTransmission: bool,
    doUseFilterTransmission: bool,
    doUseSensorTransmission: bool,
    doUseAtmosphereTransmission: bool,
    doIlluminationCorrection: bool,
    doWrite: bool,
    doSaveInterpPixels: bool,
    qa: QaConfig,
    expectedExposureType: string,
    expectedObservationReason: string)

  /** Default of both `expectedExposureType` and `expectedObservationReason`. */
  const DefaultExpected: string := ""

  // ---------------------------------------------------------------------
  // Which slots a configuration needs (the reference table)

  /** The bias, linearity and crosstalk slots each need their own flag. */
  predicate SignalChainNeeded(c: IsrConfig, slot: Slot) {
    (slot == Bias ==> c.doBias) &&
    (slot == Linearizer ==> c.doLinearize) &&
    (slot == CrosstalkSources ==> c.doCrosstalk) &&
    (slot == Crosstalk ==> c.doCrosstalk)
  }

  /** Both brighter-fatter kernels, the defects and the dark each need their
      own flag. */
  predicate PixelCorrectionNeeded(c: IsrConfig, slot: Slot) {
    (slot == BfKernel ==> c.doBrighterFatter) &&
    (slot == NewBFKernel ==> c.doBrighterFatter) &&
    (slot == Defects ==> c.doDefect) &&
    (slot == Dark ==> c.doDark)
  }

  /** The flat, fringe and stray-light slots need their own flag; the PTC is
      needed when either of the two PTC flags is set. */
  predicate FlatFieldNeeded(c: IsrConfig, slot: Slot) {
    (slot == Flat ==> c.doFlat) &&
    (slot == Fringes ==> c.doFringe) &&
    (slot == StrayLightData ==> c.doStrayLight) &&
    (slot == Ptc ==> c.usePtcGains || c.usePtcReadNoise)
  }

  /** Whether a slot is one of the four transmission curves. */
  predicate IsTransmissionCurve(slot: Slot) {
    slot == OpticsTransmission || slot == FilterTransmission ||
    slot == SensorTransmission || slot == AtmosphereTransmission
  }

  /** Each transmission curve's own flag. */
  predicate CurveFlagSet(c: IsrConfig, slot: Slot) {
    (slot == OpticsTransmission ==> c.doUseOpticsTransmission) &&
    (slot == FilterTransmission ==> c.doUseFilterTransmission) &&
    (slot == SensorTransmission ==> c.doUseSensorTransmission) &&
    (slot == AtmosphereTransmission ==> c.doUseAtmosphereTransmission)
  }

  /** A transmission curve needs the coarse flag and its own flag. */
  predicate TransmissionNeeded(c: IsrConfig, slot: Slot) {
    (IsTransmissionCurve(slot) ==> c.doAttachTransmissionCurve) && CurveFlagSet(c, slot)
  }

  /** The slots whose rules come before flat-fielding. */
  predicate EarlyNeeded(c: IsrConfig, slot: Slot) {
    SignalChainNeeded(c, slot) && PixelCorrectionNeeded(c, slot)
  }

  /** The slots whose rules come from flat-fielding on. */
  predicate LateGated(slot: Slot) {
    slot == Flat || slot == Fringes || slot == StrayLightData || slot == Ptc ||
    slot == OpticsTransmission || slot == FilterTransmission ||
    slot == SensorTransmission || slot == AtmosphereTransmission || slot == IllumMaskedImage
  }

  /** The rules from flat-fielding on. */
  predicate LateNeeded(c: IsrConfig, slot: Slot) {
    FlatFieldNeeded(c, slot) &&
    TransmissionNeeded(c, slot) &&
    (slot == IllumMaskedImage ==> c.doIlluminationCorrection)
  }

  /** Whether an input slot is needed under `c`. The raw exposure and the
      camera are gated by no flag. */
  predicate InputNeeded(c: IsrConfig, slot: Slot) {
    EarlyNeeded(c, slot) && LateNeeded(c, slot)
  }

  /** Whether an output slot is needed under `c`: nothing is written without
      `doWrite`, and each optional product also needs its own flag. */
  predicate OutputNeeded(c: IsrConfig, slot: Slot) {
    c.doWrite && ProductNeeded(c, slot)
  }

  /** The per-product flags of the optional outputs. */
  predicate ProductNeeded(c: IsrConfig, slot: Slot) {
    (slot == PreInterpExposure ==> c.doSaveInterpPixels) &&
    (slot == OutputOssThumbnail ==> c.qa.doThumbnailOss) &&
    (slot == OutputFlattenedThumbnail ==> c.qa.doThumbnailFlattened)
  }

  /** A declared regular input slot that survives pruning under `c`. */
  predicate InputKept(c: IsrConfig, slot: Slot) {
    IsRegularInput(slot) && InputNeeded(c, slot)
  }

  /** A declared output slot that survives pruning under `c`. */
  predicate OutputKept(c: IsrConfig, slot: Slot) {
    IsOutput(slot) && OutputNeeded(c, slot)
  }

  // ---------------------------------------------------------------------
  // The connections constructor

  /** Builds the connections for `config`: starts from every declared slot
      and applies the rules in source order, each `if not flag: del ...` as
      one `DelUnless` per deleted slot. Every unguarded deletion targets a
      slot that is still present (the precondition of `Del`), and exactly
      the slots the configuration needs remain. */
  method InitConnections(config: IsrConfig) returns (conn: Pipeline.Connections<Slot>)
    ensures fresh(conn) && conn.Valid()
    ensures forall s :: s in conn.inputs <==> InputKept(config, s)
    ensures conn.prerequisites == DeclaredPrerequisites
    ensures forall s :: s in conn.outputs <==> OutputKept(config, s)
  {
    conn := DeclaredConnections();
    DropEarlyInputs(conn, config);
    DropLateInputs(conn, config);
    DropOutputs(conn, config);
  }

  /** The connections as declared, before any rule applies: every declared
      input and every declared output. */
  method DeclaredConnections() returns (conn: Pipeline.Connections<Slot>)
    ensures fresh(conn) && conn.Valid()
    ensures forall x :: x in conn.inputs <==> IsRegularInput(x)
    ensures conn.prerequisites == DeclaredPrerequisites
    ensures forall x :: x in conn.outputs <==> IsOutput(x)
  {
    conn := new Pipeline.Connections<Slot>(DeclaredInputs, DeclaredPrerequisites, DeclaredOutputs);
    DeclaredSlots();
  }

  /** The rules for the calibrations applied before flat-fielding. */
  method DropEarlyInputs(conn: Pipeline.Connections<Slot>, config: IsrConfig)
    requires conn.Valid()
    requires forall x :: x in conn.inputs <==> IsRegularInput(x)
    modifies conn
    ensures conn.Valid()
    ensures forall x :: x in conn.inputs <==> IsRegularInput(x) && EarlyNeeded(config, x)
    ensures conn.prerequisites == old(conn.prerequisites)
    ensures conn.outputs == old(conn.outputs)
  {
    DropSignalChain(conn, config);
    DropPixelCorrections(conn, config);
  }

  /** The rules for flat-fielding, the transmission curves and the
      illumination correction. */
  method DropLateInputs(conn: Pipeline.Connections<Slot>, config: IsrConfig)
    requires conn.Valid()
    requires forall x :: LateGated(x) ==> x in conn.inputs
    modifies conn
    ensures conn.Valid()
    ensures forall x :: x in conn.inputs <==> x in old(conn.inputs) && LateNeeded(config, x)
    ensures conn.prerequisites == old(conn.prerequisites)
    ensures conn.outputs == old(conn.outputs)
  {
    DropFlatField(conn, config);
    DropTransmissionCurves(conn, config);
    conn.DelUnless(config.doIlluminationCorrection, IllumMaskedImage);
  }

  /** The bias, linearity and crosstalk rules. */
  method DropSignalChain(conn: Pipeline.Connections<Slot>, config: IsrConfig)
    requires conn.Valid()
    requires Bias in conn.inputs && Linearizer in conn.inputs
    requires CrosstalkSources in conn.inputs && Crosstalk in conn.inputs
    modifies conn
    ensures conn.Valid()
    ensures forall x :: x in conn.inputs <==> x in old(conn.inputs) && SignalChainNeeded(config, x)
    ensures conn.prerequisites == old(conn.prerequisites)
    ensures conn.outputs == old(conn.outputs)
  {
    conn.DelUnless(config.doBias, Bias);
    conn.DelUnless(config.doLinearize, Linearizer);
    conn.DelUnless(config.doCrosstalk, CrosstalkSources);
    conn.DelUnless(config.doCrosstalk, Crosstalk);
  }

  /** The brighter-fatter, defect and dark rules. */
  method DropPixelCorrections(conn: Pipeline.Connections<Slot>, config: IsrConfig)
    requires conn.Valid()
    requires BfKernel in conn.inputs && NewBFKernel in conn.inputs
    requires Defects in conn.inputs && Dark in conn.inputs
    modifies conn
    ensures conn.Valid()
    ensures forall x :: x in conn.inputs <==> x in old(conn.inputs) && PixelCorrectionNeeded(config, x)
    ensures conn.prerequisites == old(conn.prerequisites)
    ensures conn.outputs == old(conn.outputs)
  {
    conn.DelUnless(config.doBrighterFatter, BfKernel);
    conn.DelUnless(config.doBrighterFatter, NewBFKernel);
    conn.DelUnless(config.doDefect, Defects);
    conn.DelUnless(config.doDark, Dark);
  }

  /** The flat, fringe, stray-light and PTC rules. */
  method DropFlatField(conn: Pipeline.Connections<Slot>, config: IsrConfig)
    requires conn.Valid()
    requires Flat in conn.inputs && Fringes in conn.inputs
    requires StrayLightData in conn.inputs && Ptc in conn.inputs
    modifies conn
    ensures conn.Valid()
    ensures forall x :: x in conn.inputs <==> x in old(conn.inputs) && FlatFieldNeeded(config, x)
    ensures conn.prerequisites == old(conn.prerequisites)
    ensures conn.outputs == old(conn.outputs)
  {
    conn.DelUnless(config.doFlat, Flat);
    conn.DelUnless(config.doFringe, Fringes);
    conn.DelUnless(config.doStrayLight, StrayLightData);
    conn.DelUnless(config.usePtcGains || config.usePtcReadNoise, Ptc);
  }

  /** The composite transmission rule: the coarse flag first, then each
      curve's own flag. */
  method DropTransmissionCurves(conn: Pipeline.Connections<Slot>, config: IsrConfig)
    requires conn.Valid()
    requires OpticsTransmission in conn.inputs && FilterTransmission in conn.inputs
    requires SensorTransmission in conn.inputs && AtmosphereTransmission in conn.inputs
    modifies conn
    ensures conn.Valid()
    ensures forall x :: x in conn.inputs <==> x in old(conn.inputs) && TransmissionNeeded(config, x)
    ensures conn.prerequisites == old(conn.prerequisites)
    ensures conn.outputs == old(conn.outputs)
  {
    if !config.doAttachTransmissionCurve {
      DropAllCurves(conn);
    } else {
      DropUnusedCurves(conn, config);
    }
  }

  /** Without the coarse flag all four curves are deleted unguarded, so each
      must still be declared. */
  method DropAllCurves(conn: Pipeline.Connections<Slot>)
    requires conn.Valid()
    requires OpticsTransmission in conn.inputs && FilterTransmission in conn.inputs
    requires SensorTransmission in conn.inputs && AtmosphereTransmission in conn.inputs
    modifies conn
    ensures conn.Valid()
    ensures forall x :: x in conn.inputs <==> x in old(conn.inputs) && !IsTransmissionCurve(x)
    ensures conn.prerequisites == old(conn.prerequisites)
    ensures conn.outputs == old(conn.outputs)
  {
    conn.Del(OpticsTransmission);
    conn.Del(FilterTransmission);
    conn.Del(SensorTransmission);
    conn.Del(AtmosphereTransmission);
  }

  /** With the coarse flag each curve is deleted unless its own flag is set. */
  method DropUnusedCurves(conn: Pipeline.Connections<Slot>, config: IsrConfig)
    requires conn.Valid()
    requires OpticsTransmission in conn.inputs && FilterTransmission in conn.inputs
    requires SensorTransmission in conn.inputs && AtmosphereTransmission in conn.inputs
    modifies conn
    ensures conn.Valid()
    ensures forall x :: x in conn.inputs <==> x in old(conn.inputs) && CurveFlagSet(config, x)
    ensures conn.prerequisites == old(conn.prerequisites)
    ensures conn.outputs == old(conn.outputs)
  {
    conn.DelUnless(config.doUseOpticsTransmission, OpticsTransmission);
    conn.DelUnless(config.doUseFilterTransmission, FilterTransmission);
    conn.DelUnless(config.doUseSensorTransmission, SensorTransmission);
    conn.DelUnless(config.doUseAtmosphereTransmission, AtmosphereTransmission);
  }

  /** The write rule and the three per-product rules. */
  method DropOutputs(conn: Pipeline.Connections<Slot>, config: IsrConfig)
    requires conn.Valid()
    requires forall x :: x in conn.outputs <==> IsOutput(x)
    modifies conn
    ensures conn.Valid()
    ensures forall x :: x in conn.outputs <==> OutputKept(config, x)
    ensures conn.inputs == old(conn.inputs)
    ensures conn.prerequisites == old(conn.prerequisites)
  {
    DropUnwritten(conn, config);
    DropOptionalProducts(conn, config);
  }

  /** The write rule: without `doWrite` its four outputs are deleted
      unguarded, so each must still be declared. */
  method DropUnwritten(conn: Pipeline.Connections<Slot>, config: IsrConfig)
    requires conn.Valid()
    requires forall x :: x in conn.outputs <==> IsOutput(x)
    modifies conn
    ensures conn.Valid()
    ensures forall x :: x in conn.outputs <==> IsOutput(x) && config.doWrite
    ensures conn.inputs == old(conn.inputs)
    ensures conn.prerequisites == old(conn.prerequisites)
  {
    if !config.doWrite {
      conn.Del(OutputExposure);
      conn.Del(PreInterpExposure);
      conn.Del(OutputFlattenedThumbnail);
      conn.Del(OutputOssThumbnail);
    }
  }

  /** The per-product rules: each deletes its output only if it is still
      there, so none can fail. */
  method DropOptionalProducts(conn: Pipeline.Connections<Slot>, config: IsrConfig)
    requires conn.Valid()
    modifies conn
    ensures conn.Valid()
    ensures forall x :: x in conn.outputs <==> x in old(conn.outputs) && ProductNeeded(config, x)
    ensures conn.inputs == old(conn.inputs)
    ensures conn.prerequisites == old(conn.prerequisites)
  {
    if !config.doSaveInterpPixels {
      if PreInterpExposure in conn.outputs {
        conn.Del(PreInterpExposure);
      }
    }
    if !config.qa.doThumbnailOss {
      if OutputOssThumbnail in conn.outputs {
        conn.Del(OutputOssThumbnail);
      }
    }
    if !config.qa.doThumbnailFlattened {
      if OutputFlattenedThumbnail in conn.outputs {
        conn.Del(OutputFlattenedThumbnail);
      }
    }
  }

  // ---------------------------------------------------------------------
  // Properties of pruning

  /** The bias, linearity and crosstalk slots are kept exactly when their
      flag is set. */
  lemma SignalChainGate(c: IsrConfig)
    ensures InputKept(c, Bias) <==> c.doBias
    ensures InputKept(c, Linearizer) <==> c.doLinearize
    ensures InputKept(c, Crosstalk) <==> c.doCrosstalk
    ensures InputKept(c, CrosstalkSources) <==> c.doCrosstalk
  {
  }

  /** The brighter-fatter kernels, the defects and the dark are kept exactly
      when their flag is set. */
  lemma PixelCorrectionGate(c: IsrConfig)
    ensures InputKept(c, BfKernel) <==> c.doBrighterFatter
    ensures InputKept(c, NewBFKernel) <==> c.doBrighterFatter
    ensures InputKept(c, Defects) <==> c.doDefect
    ensures InputKept(c, Dark) <==> c.doDark
  {
  }

  /** The flat, fringes, stray light and illumination correction are kept
      exactly when their flag is set. */
  lemma FlatFieldGate(c: IsrConfig)
    ensures InputKept(c, Flat) <==> c.doFlat
    ensures InputKept(c, Fringes) <==> c.doFringe
    ensures InputKept(c, StrayLightData) <==> c.doStrayLight
    ensures InputKept(c, IllumMaskedImage) <==> c.doIlluminationCorrection
  {
  }

  /** The PTC is dropped only when neither PTC gains nor PTC read noise is used. */
  lemma PtcGate(c: IsrConfig)
    ensures !InputKept(c, Ptc) <==> !c.usePtcGains && !c.usePtcReadNoise
  {
  }

  /** Without the coarse transmission flag no transmission curve remains,
      whatever the per-curve flags say. */
  lemma TransmissionCoarseGate(c: IsrConfig)
    requires !c.doAttachTransmissionCurve
    ensures forall s :: s in TransmissionSlots ==> !InputKept(c, s)
  {
  }

  /** With the coarse transmission flag each curve remains iff its own flag is set. */
  lemma TransmissionFineGate(c: IsrConfig)
    requires c.doAttachTransmissionCurve
    ensures InputKept(c, OpticsTransmission) <==> c.doUseOpticsTransmission
    ensures InputKept(c, FilterTransmission) <==> c.doUseFilterTransmission
    ensures InputKept(c, SensorTransmission) <==> c.doUseSensorTransmission
    ensures InputKept(c, AtmosphereTransmission) <==> c.doUseAtmosphereTransmission
  {
  }

  /** The write chain: `doWrite` first, then the per-product flags. */
  lemma WriteQaGate(c: IsrConfig)
    ensures OutputKept(c, OutputExposure) <==> c.doWrite
    ensures OutputKept(c, PreInterpExposure) <==> c.doWrite && c.doSaveInterpPixels
    ensures OutputKept(c, OutputOssThumbnail) <==> c.doWrite && c.qa.doThumbnailOss
    ensures OutputKept(c, OutputFlattenedThumbnail) <==> c.doWrite && c.qa.doThumbnailFlattened
  {
  }

  /** The raw exposure is kept for every configuration (the camera, a
      prerequisite, is never touched), and no slot outside the declaration
      appears. */
  lemma UngatedSlotsRemain(c: IsrConfig)
    ensures InputKept(c, CcdExposure)
    ensures forall s :: InputKept(c, s) ==> s in DeclaredInputs
    ensures forall s :: OutputKept(c, s) ==> s in DeclaredOutputs
  {
  }

  /** With every flag off only the raw exposure remains among the regular
      inputs and nothing is written. */
  lemma AllFlagsOff(c: IsrConfig)
    requires !c.doBias && !c.doLinearize && !c.doCrosstalk && !c.doBrighterFatter
    requires !c.doDefect && !c.doDark && !c.doFlat && !c.doFringe && !c.doStrayLight
    requires !c.usePtcGains && !c.usePtcReadNoise && !c.doAttachTransmissionCurve
    requires !c.doIlluminationCorrection && !c.doWrite
    ensures forall s :: InputKept(c, s) <==> s == CcdExposure
    ensures forall s :: !OutputKept(c, s)
  {
  }

  // ---------------------------------------------------------------------
  // Admission filter

  /** The `exposure` record of a dataset reference's data ID. */
  datatype ExposureRecord = ExposureRecord(observationType: string, observationReason: string)

  /** A data ID is either expanded, carrying its exposure record, or minimal,
      without one; reading the record of a minimal data ID fails. */
  datatype DataId = Expanded(exposure: ExposureRecord) | Minimal

  /** A dataset reference, reduced to its data ID. */
  datatype DatasetRef = DatasetRef(dataId: DataId)

  /** The references of a quantum, by connection name. */
  type Quantum = map<Slot, seq<DatasetRef>>

  /** Outcome of `adjustQuantum`. `Admitted` hands the inputs and outputs on
      unchanged; `NoWorkFound` is the framework's skip signal;
      `MissingInput` is the lookup failure raised when the quantum has no
      `ccdExposure` reference; `MissingMetadata` is the failure to read the
      exposure record of a minimal data ID. */
  datatype Adjustment =
    | Admitted(inputs: Quantum, outputs: Quantum)
    | NoWorkFound
    | MissingInput
    | MissingMetadata

  /** The exposure type is configured and the observed one differs from its
      lower case. */
  predicate TypeMismatch(c: IsrConfig, e: ExposureRecord) {
    c.expectedExposureType != "" && e.observationType != Ascii.Lower(c.expectedExposureType)
  }

  /** The observation reason is configured and the observed one differs from
      its lower case. */
  predicate ReasonMismatch(c: IsrConfig, e: ExposureRecord) {
    c.expectedObservationReason != "" && e.observationReason != Ascii.Lower(c.expectedObservationReason)
  }

  /** Some expectation is configured, so the exposure record is read. */
  predicate ReadsRecord(c: IsrConfig) {
    c.expectedExposureType != "" || c.expectedObservationReason != ""
  }

  predicate HasCcdExposure(inputs: Quantum) {
    CcdExposure in inputs && |inputs[CcdExposure]| > 0
  }

  /** The data ID the decision is taken on: that of the first `ccdExposure`
      reference. */
  function FirstDataId(inputs: Quantum): DataId
    requires HasCcdExposure(inputs)
  {
    inputs[CcdExposure][0].dataId
  }

  /** The admission decision: fail without a raw-exposure reference, or when
      an expectation must be checked against a data ID without its record;
      skip when either configured expectation is violated by the first
      input exposure; admit otherwise. */
  function Admission(c: IsrConfig, inputs: Quantum, outputs: Quantum): Adjustment {
    if !HasCcdExposure(inputs) then MissingInput
    else match FirstDataId(inputs)
      case Minimal =>
        if ReadsRecord(c) then MissingMetadata else Admitted(inputs, outputs)
      case Expanded(e) =>
        if TypeMismatch(c, e) || ReasonMismatch(c, e) then NoWorkFound else Admitted(inputs, outputs)
  }

  /** `adjustQuantum`: reads the first `ccdExposure` reference, clears a
      work flag for each violated expectation, and skips or admits. */
  method AdjustQuantum(config: IsrConfig, inputs: Quantum, outputs: Quantum) returns (r: Adjustment)
    ensures r == Admission(config, inputs, outputs)
  {
    if CcdExposure !in inputs || |inputs[CcdExposure]| == 0 {
      return MissingInput;
    }
    var inputExpRef := inputs[CcdExposure][0];
    var doWork := true;

    if config.expectedExposureType != "" {
      var expected := Ascii.Lower(config.expectedExposureType);
      if inputExpRef.dataId.Minimal? {
        return MissingMetadata;
      }
      var observationType := inputExpRef.dataId.exposure.observationType;
      if observationType != expected {
        doWork := false;
      }
    }

    if config.expectedObservationReason != "" {
      var expected := Ascii.Lower(config.expectedObservationReason);
      if inputExpRef.dataId.Minimal? {
        return MissingMetadata;
      }
      var observationReason := inputExpRef.dataId.exposure.observationReason;
      if observationReason != expected {
        doWork := false;
      }
    }

    if !doWork {
      r := NoWorkFound;
    } else {
      r := Admitted(inputs, outputs);
    }
  }

  // ---------------------------------------------------------------------
  // Properties of admission

  /** With an expanded `ccdExposure` reference present, the quantum is
      skipped iff one of the two expectations is violated, and admitted
      unchanged otherwise. */
  lemma AdmissionCases(c: IsrConfig, inputs: Quantum, outputs: Quantum)
    requires HasCcdExposure(inputs) && FirstDataId(inputs).Expanded?
    ensures var e := FirstDataId(inputs).exposure;
      Admission(c, inputs, outputs) == NoWorkFound <==> TypeMismatch(c, e) || ReasonMismatch(c, e)
    ensures var e := FirstDataId(inputs).exposure;
      Admission(c, inputs, outputs) == Admitted(inputs, outputs) <==> !TypeMismatch(c, e) && !ReasonMismatch(c, e)
  {
  }

  /** A minimal data ID fails exactly when some expectation is configured;
      otherwise the record is never read and the quantum is admitted. */
  lemma MinimalDataIdCases(c: IsrConfig, inputs: Quantum, outputs: Quantum)
    requires HasCcdExposure(inputs) && FirstDataId(inputs) == Minimal
    ensures Admission(c, inputs, outputs) == MissingMetadata <==> ReadsRecord(c)
    ensures Admission(c, inputs, outputs) == Admitted(inputs, outputs) <==> !ReadsRecord(c)
  {
  }

  /** With both expectations at their default every quantum that has an
      input exposure is admitted, whatever its data ID holds. */
  lemma DefaultAdmitsAll(c: IsrConfig, inputs: Quantum, outputs: Quantum)
    requires c.expectedExposureType == DefaultExpected
    requires c.expectedObservationReason == DefaultExpected
    requires HasCcdExposure(inputs)
    ensures Admission(c, inputs, outputs) == Admitted(inputs, outputs)
  {
  }

  /** Only the first `ccdExposure` reference is consulted: two quanta whose
      first references carry the same data ID get the same kind of verdict,
      whatever else they hold. */
  lemma OnlyFirstExposureMatters(c: IsrConfig, in1: Quantum, in2: Quantum, outputs: Quantum)
    requires HasCcdExposure(in1) && HasCcdExposure(in2)
    requires FirstDataId(in1) == FirstDataId(in2)
    ensures Admission(c, in1, outputs).NoWorkFound? == Admission(c, in2, outputs).NoWorkFound?
    ensures Admission(c, in1, outputs).MissingMetadata? == Admission(c, in2, outputs).MissingMetadata?
    ensures Admission(c, in1, outputs).Admitted? == Admission(c, in2, outputs).Admitted?
  {
  }

  /** The configured strings are compared case-insensitively: two
      configurations whose expectations agree up to ASCII case decide alike. */
  lemma ConfiguredCaseIrrelevant(c1: IsrConfig, c2: IsrConfig, inputs: Quantum, outputs: Quantum)
    requires Ascii.Lower(c1.expectedExposureType) == Ascii.Lower(c2.expectedExposureType)
    requires Ascii.Lower(c1.expectedObservationReason) == Ascii.Lower(c2.expectedObservationReason)
    ensures Admission(c1, inputs, outputs) == Admission(c2, inputs, outputs)
  {
    Ascii.LowerEmpty(c1.expectedExposureType);
    Ascii.LowerEmpty(c2.expectedExposureType);
    Ascii.LowerEmpty(c1.expectedObservationReason);
    Ascii.LowerEmpty(c2.expectedObservationReason);
  }

  /** The observed value is compared as it is: once an exposure type is
      configured, an observed type holding an upper-case ASCII letter never
      matches, so the quantum is skipped. */
  lemma UpperCaseObservationSkipped(c: IsrConfig, inputs: Quantum, outputs: Quantum)
    requires HasCcdExposure(inputs) && FirstDataId(inputs).Expanded?
    requires c.expectedExposureType != ""
    requires Ascii.HasUpper(FirstDataId(inputs).exposure.observationType)
    ensures Admission(c, inputs, outputs) == NoWorkFound
  {
    Ascii.LowerHasNoUpper(c.expectedExposureType);
  }

  /** An observed type equal to the lowered configured type, whatever case
      that was configured in, is no type mismatch. */
  lemma MatchingTypeAnyCase(c: IsrConfig, e: ExposureRecord)
    requires Ascii.Lower(c.expectedExposureType) == e.observationType
    ensures !TypeMismatch(c, e)
  {
  }

  /** A quantum whose only input is one raw exposure with the given type
      and reason and an expanded data ID. */
  function SingleExposure(observationType: string, observationReason: string): (q: Quantum)
    ensures HasCcdExposure(q)
    ensures FirstDataId(q) == Expanded(ExposureRecord(observationType, observationReason))
  {
    map[CcdExposure := [DatasetRef(Expanded(ExposureRecord(observationType, observationReason)))]]
  }

  /** The configured value "Flat" is normalised to "flat". */
  lemma FlatLowered()
    ensures Ascii.Lower("Flat") == "flat"
  {
    assert "Flat"[1..] == "lat";
    Ascii.LowerOfLower("lat");
  }

  /** Concrete case: a "Flat" expectation without a reason admits a "flat"
      exposure and skips a "bias" one. */
  lemma FlatTypeExamples(c: IsrConfig, outputs: Quantum)
    requires c.expectedExposureType == "Flat" && c.expectedObservationReason == ""
    ensures Admission(c, SingleExposure("flat", "science"), outputs)
      == Admitted(SingleExposure("flat", "science"), outputs)
    ensures Admission(c, SingleExposure("bias", "science"), outputs) == NoWorkFound
  {
    FlatLowered();
  }

  /** The configured value "calibration" is already in lower case. */
  lemma CalibrationLowered()
    ensures Ascii.Lower("calibration") == "calibration"
  {
    Ascii.LowerOfLower("calibration");
  }

  /** Concrete case: with a "calibration" reason configured as well, a flat
      taken for science is skipped. */
  lemma FlatForScienceSkipped(c: IsrConfig, outputs: Quantum)
    requires c.expectedExposureType == "Flat" && c.expectedObservationReason == "calibration"
    ensures Admission(c, SingleExposure("flat", "science"), outputs) == NoWorkFound
  {
    CalibrationLowered();
  }

  /** Concrete case: with a "calibration" reason configured as well, a flat
      taken for calibration is admitted. */
  lemma FlatForCalibrationAdmitted(c: IsrConfig, outputs: Quantum)
    requires c.expectedExposureType == "Flat" && c.expectedObservationReason == "calibration"
    ensures Admission(c, SingleExposure("flat", "calibration"), outputs)
      == Admitted(SingleExposure("flat", "calibration"), outputs)
  {
    FlatLowered();
    CalibrationLowered();
  }
}
