/** The connections of the brighter-fatter kernel, linearity and photodiode
    correction tasks of the calibration test pipelines. Only the linearity
    task prunes its connections; the other two are fixed declarations. */
module Cp {
  import Pipeline

  /** The connection slots of the three tasks. */
  datatype Slot =
    | Dummy | Camera | InputPtc | InputPhotodiodeData | InputPhotodiodeCorrection
    | OutputLinearizer | OutputBFK

  /** A boolean configuration field that may also be left unset (`None`). */
  datatype OptionalFlag = Unset | Flag(value: bool)

  /** The test `field is True`: only a field set to true passes; an unset
      field fails like a false one. */
  predicate IsTrue(f: OptionalFlag) {
    f == Flag(true)
  }

  /** The configuration fields the linearity connections read. */
  datatype LinearityConfig = LinearityConfig(
    applyPhotodiodeCorrection: OptionalFlag,
    usePhotodiode: OptionalFlag)

  // ---------------------------------------------------------------------
  // Brighter-fatter kernel and photodiode correction: fixed declarations

  const BfkInputs: set<Slot> := {Dummy, InputPtc}
  const BfkPrerequisites: set<Slot> := {Camera}
  const BfkOutputs: set<Slot> := {OutputBFK}

  /** The brighter-fatter kernel connections: a raw exposure and a PTC in,
      the camera as prerequisite, one kernel out, whatever the
      configuration. */
  method InitBrighterFatterKernelSolveConnections() returns (conn: Pipeline.Connections<Slot>)
    ensures fresh(conn) && conn.Valid()
    ensures conn.inputs == {Dummy, InputPtc}
    ensures conn.prerequisites == {Camera}
    ensures conn.outputs == {OutputBFK}
  {
    conn := new Pipeline.Connections<Slot>(BfkInputs, BfkPrerequisites, BfkOutputs);
  }

  /** The photodiode-correction connections: the PTC is the only slot
      declared here, whatever the configuration. */
  method InitPhotodiodeCorrectionConnections() returns (conn: Pipeline.Connections<Slot>)
    ensures fresh(conn) && conn.Valid()
    ensures conn.inputs == {InputPtc}
    ensures conn.prerequisites == {} && conn.outputs == {}
  {
    conn := new Pipeline.Connections<Slot>({InputPtc}, {}, {});
  }

  // ---------------------------------------------------------------------
  // Linearity solve: two discards

  const LinearityDeclaredInputs: set<Slot> := {Dummy, InputPtc, InputPhotodiodeCorrection}
  const LinearityDeclaredPrerequisites: set<Slot> := {Camera, InputPhotodiodeData}
  const LinearityDeclaredOutputs: set<Slot> := {OutputLinearizer}

  /** The regular linearity inputs after the two discards, both applied to
      the regular inputs as the constructor does. Photodiode data is a
      prerequisite, so its discard finds nothing there: only the correction
      flag matters. */
  function LinearityInputs(c: LinearityConfig): (r: set<Slot>)
    ensures forall s :: s in r <==>
      s in LinearityDeclaredInputs &&
      (s == InputPhotodiodeCorrection ==> IsTrue(c.applyPhotodiodeCorrection))
  {
    var afterCorrection :=
      if IsTrue(c.applyPhotodiodeCorrection) then LinearityDeclaredInputs
      else Pipeline.Discarded(LinearityDeclaredInputs, InputPhotodiodeCorrection);
    if IsTrue(c.usePhotodiode) then afterCorrection
    else Pipeline.Discarded(afterCorrection, InputPhotodiodeData)
  }

  /** The prerequisites the linearity task is evidently meant to keep: the
      declared ones, minus the photodiode data unless `usePhotodiode` is
      true. */
  function IntendedLinearityPrerequisites(c: LinearityConfig): (r: set<Slot>)
    ensures forall s :: s in r <==>
      s in LinearityDeclaredPrerequisites &&
      (s == InputPhotodiodeData ==> IsTrue(c.usePhotodiode))
  {
    if IsTrue(c.usePhotodiode) then LinearityDeclaredPrerequisites
    else Pipeline.Discarded(LinearityDeclaredPrerequisites, InputPhotodiodeData)
  }

  /** Builds the linearity connections as written: every declared slot,
      then the photodiode correction and the photodiode data are each
      discarded from the regular inputs unless their flag is true. The
      photodiode data stays among the prerequisites for every
      configuration. */
  method InitLinearitySolveConnections(config: LinearityConfig) returns (conn: Pipeline.Connections<Slot>)
    ensures fresh(conn) && conn.Valid()
    ensures conn.inputs == LinearityInputs(config)
    ensures conn.prerequisites == LinearityDeclaredPrerequisites
    ensures conn.outputs == LinearityDeclaredOutputs
  {
    conn := new Pipeline.Connections<Slot>(
      LinearityDeclaredInputs, LinearityDeclaredPrerequisites, LinearityDeclaredOutputs);
    if !IsTrue(config.applyPhotodiodeCorrection) {
      conn.Discard(InputPhotodiodeCorrection);
    }
    if !IsTrue(config.usePhotodiode) {
      conn.Discard(InputPhotodiodeData);
    }
  }

  /** The linearity connections as evidently intended: the photodiode data
      is discarded from the prerequisites, where it is declared. */
  method InitLinearitySolveConnectionsIntended(config: LinearityConfig) returns (conn: Pipeline.Connections<Slot>)
    ensures fresh(conn) && conn.Valid()
    ensures conn.inputs == LinearityInputs(config)
    ensures conn.prerequisites == IntendedLinearityPrerequisites(config)
    ensures conn.outputs == LinearityDeclaredOutputs
  {
    conn := new Pipeline.Connections<Slot>(
      LinearityDeclaredInputs, LinearityDeclaredPrerequisites, LinearityDeclaredOutputs);
    if !IsTrue(config.applyPhotodiodeCorrection) {
      conn.Discard(InputPhotodiodeCorrection);
    }
    if !IsTrue(config.usePhotodiode) {
      conn.DiscardPrerequisite(InputPhotodiodeData);
    }
  }

  // ---------------------------------------------------------------------
  // Properties of the linearity pruning

  /** As written, `usePhotodiode` has no effect: the photodiode data is
      requested for every configuration, including one that turns it off. */
  lemma PhotodiodeDataAlwaysRequested(c: LinearityConfig)
    ensures InputPhotodiodeData in LinearityDeclaredPrerequisites
    ensures LinearityInputs(c) == LinearityInputs(c.(usePhotodiode := Flag(true)))
    ensures !IsTrue(c.usePhotodiode) ==> InputPhotodiodeData !in IntendedLinearityPrerequisites(c)
  {
    var t := c.(usePhotodiode := Flag(true));
    assert forall s :: s in LinearityInputs(c) <==> s in LinearityInputs(t);
  }

  /** Each photodiode slot is absent exactly when its own flag is not true:
      the correction from the inputs, the data from the intended
      prerequisites. */
  lemma LinearityGates(c: LinearityConfig)
    ensures InputPhotodiodeCorrection !in LinearityInputs(c) <==> !IsTrue(c.applyPhotodiodeCorrection)
    ensures InputPhotodiodeData !in IntendedLinearityPrerequisites(c) <==> !IsTrue(c.usePhotodiode)
  {
  }

  /** An unset flag discards its slot just as a false one does. */
  lemma UnsetDiscards(c: LinearityConfig)
    requires c.applyPhotodiodeCorrection == Unset && c.usePhotodiode == Unset
    ensures LinearityInputs(c) == {Dummy, InputPtc}
    ensures IntendedLinearityPrerequisites(c) == {Camera}
  {
    assert forall s :: s in LinearityInputs(c) ==> s == Dummy || s == InputPtc;
    assert forall s :: s in IntendedLinearityPrerequisites(c) ==> s == Camera;
  }

  /** With both flags true nothing is discarded. */
  lemma BothTrueKeepsAll(c: LinearityConfig)
    requires IsTrue(c.applyPhotodiodeCorrection) && IsTrue(c.usePhotodiode)
    ensures LinearityInputs(c) == LinearityDeclaredInputs
    ensures IntendedLinearityPrerequisites(c) == LinearityDeclaredPrerequisites
  {
  }

  /** The exposure, the PTC and the camera are never discarded, and nothing
      outside the declared slots appears. */
  lemma LinearityNeverRemoved(c: LinearityConfig)
    ensures {Dummy, InputPtc} <= LinearityInputs(c) <= LinearityDeclaredInputs
    ensures {Camera} <= IntendedLinearityPrerequisites(c) <= LinearityDeclaredPrerequisites
  {
  }

  /** The two rules are independent: the inputs depend only on the
      correction flag and the intended prerequisites only on the photodiode
      flag, so the order of the two discards does not matter. */
  lemma LinearityRulesIndependent(c1: LinearityConfig, c2: LinearityConfig)
    ensures c1.applyPhotodiodeCorrection == c2.applyPhotodiodeCorrection ==>
      LinearityInputs(c1) == LinearityInputs(c2)
    ensures c1.usePhotodiode == c2.usePhotodiode ==>
      IntendedLinearityPrerequisites(c1) == IntendedLinearityPrerequisites(c2)
  {
    if c1.applyPhotodiodeCorrection == c2.applyPhotodiodeCorrection {
      assert forall s :: s in LinearityInputs(c1) <==> s in LinearityInputs(c2);
    }
    if c1.usePhotodiode == c2.usePhotodiode {
      assert forall s :: s in IntendedLinearityPrerequisites(c1) <==> s in IntendedLinearityPrerequisites(c2);
    }
  }
}
