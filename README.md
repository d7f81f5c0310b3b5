# cp_testing connections and admission, modelled in Dafny

The calibration test pipelines of `cp_testing` wrap framework tasks. This
package's own logic is small:

- **ISR connections** (`CptIsrTaskConnections`). The class declares 18
  regular input slots, one prerequisite input (the camera) and 4 output
  slots. Its constructor deletes the slots that the
  configuration switches off, one `if not flag: del self.<slot>` at a time.
  There are two composite rules:
  - the transmission curves need a coarse flag and a per-curve flag;
  - the written products need `doWrite` and a per-product flag. The
    per-product deletions are guarded by a membership test.
- **ISR admission** (`adjustQuantum`). It reads the first raw-exposure
  reference of a unit of work (a quantum). It skips the quantum with
  `NoWorkFound` when a configured exposure type or observation reason,
  lower-cased, differs from the value recorded for that exposure. Otherwise
  it hands the quantum on. Checking an expectation fails when the
  reference's data ID carries no exposure record.
- **Linearity connections** (`CptLinearitySolveConnections`). The constructor
  calls `self.inputs.discard` for the photodiode-correction input and for
  the photodiode data unless their flag is exactly `True`. The photodiode
  data is a prerequisite input, which the regular-input set does not hold,
  so the second discard removes nothing (see "Findings").
- **Brighter-fatter kernel and photodiode-correction connections.** These are
  fixed declarations.

Modules:

- `Pipeline` (`pipeline.dfy`): the framework's connections object, as a class
  `Connections<S>`. It has `inputs`, `prerequisites` and `outputs` sets and
  these operations:
  - `Del`: `del self.x` must find the slot;
  - `DelUnless`: `if not keep: del self.x`;
  - `Discard`: `self.inputs.discard(x)` never fails and touches only the
    regular inputs;
  - `DiscardPrerequisite`: the same on the prerequisite inputs.
- `Isr` (`isr.dfy`): the ISR slot enumeration and configuration.
  - A reference predicate says which slots each configuration keeps:
    `InputKept`, `OutputKept`.
  - The constructor `InitConnections` is proved to leave exactly those
    slots. Every unguarded deletion in it is proved to hit a slot that is
    still present.
  - The admission decision is the function `Admission`; the method
    `AdjustQuantum` is proved to compute it.
- `Ascii` (`ascii.dfy`): `str.lower()` restricted to ASCII letters.
- `Cp` (`cp.dfy`): the linearity, brighter-fatter kernel and
  photodiode-correction connections.

## Model

| member | source | states |
|---|---|---|
| Pipeline.Connections.constructor | python/lsst/cp/testing/isr.py:197 | the framework starts a connections object from the declared regular input, prerequisite input and output slots, which are pairwise disjoint |
| Pipeline.Connections.Del | python/lsst/cp/testing/isr.py:199-242 | `del self.x` needs the slot to be present in one of the three sets; afterwards it is in none and every other slot stays where it was |
| Pipeline.Connections.DelUnless | python/lsst/cp/testing/isr.py:199-236 | `if not keep: del self.x` needs the slot only when it deletes; the slot remains exactly when `keep` holds, and nothing else changes |
| Pipeline.Connections.Discard | python/lsst/cp/testing/cp.py:134-138 | `inputs.discard(x)` has no precondition; the regular inputs afterwards are the old ones with `x` discarded; the prerequisites and outputs are unchanged |
| Pipeline.Connections.DiscardPrerequisite | python/lsst/cp/testing/cp.py:137-138 | the intended discard of the photodiode data: takes `x` out of the prerequisites only, with no precondition |
| Pipeline.Discarded | python/lsst/cp/testing/cp.py:135 | after a discard the name is absent and every other element is as before; discarding an absent name changes nothing |
| Pipeline.DiscardIdempotent | python/lsst/cp/testing/cp.py:135 | discarding the same name twice equals discarding it once |
| Pipeline.DiscardCommutes | python/lsst/cp/testing/cp.py:134-138 | two discards give the same set in either order |
| Ascii.LowerChar | python/lsst/cp/testing/isr.py:284 | a capital maps to its own lower-case partner (same offset from `a` as from `A`); every other character is unchanged; the result is never a capital |
| Ascii.LowerCharInjective | python/lsst/cp/testing/isr.py:284 | two capitals with the same lower case are equal, and the only non-capital sharing a capital's lower case is that partner |
| Ascii.Lower | python/lsst/cp/testing/isr.py:284 | lower-casing keeps the length and maps each character independently |
| Ascii.LowerHasNoUpper | python/lsst/cp/testing/isr.py:290 | a lower-cased string holds no upper-case ASCII letter |
| Ascii.LowerIdempotent | python/lsst/cp/testing/isr.py:290 | lower-casing twice equals lower-casing once |
| Ascii.LowerEmpty | python/lsst/cp/testing/isr.py:283-284 | a string is empty iff its lower case is, so the `!= ""` test can be made before or after lowering |
| Ascii.LowerOfLower | python/lsst/cp/testing/isr.py:284 | a string with no upper-case letter is its own lower case |
| Isr.DeclaredSlots | python/lsst/cp/testing/isr.py:33-194 | the declared regular inputs are exactly the slots that are neither an output nor the camera, and the declared outputs exactly the four output slots |
| Isr.DeclaredConnections | python/lsst/cp/testing/isr.py:33-197 | before any rule, the connections hold every declared regular input, the camera as prerequisite and every declared output |
| Isr.InitConnections | python/lsst/cp/testing/isr.py:196-251 | after construction, the regular inputs are exactly the slots `InputKept` allows, the camera remains the prerequisite, and the outputs are exactly those `OutputKept` allows; every unguarded `del` finds its slot |
| Isr.DropEarlyInputs | python/lsst/cp/testing/isr.py:199-212 | from the declared inputs, the bias, linearity, crosstalk, brighter-fatter, defect and dark rules leave exactly the inputs those rules allow |
| Isr.DropLateInputs | python/lsst/cp/testing/isr.py:213-236 | given its slots present, the flat, fringe, stray-light, PTC, transmission and illumination rules remove exactly the slots they gate off; prerequisites and outputs are untouched |
| Isr.DropSignalChain | python/lsst/cp/testing/isr.py:199-205 | bias, linearizer and both crosstalk slots each remain iff their flag is set, and nothing else changes |
| Isr.DropPixelCorrections | python/lsst/cp/testing/isr.py:206-212 | both brighter-fatter kernels, the defects and the dark each remain iff their flag is set, and nothing else changes |
| Isr.DropFlatField | python/lsst/cp/testing/isr.py:213-220 | flat, fringes and stray light each remain iff their flag is set; the PTC remains iff either PTC flag is set |
| Isr.DropTransmissionCurves | python/lsst/cp/testing/isr.py:221-234 | each transmission curve remains iff the coarse flag and its own flag are both set |
| Isr.DropAllCurves | python/lsst/cp/testing/isr.py:221-225 | without the coarse flag the four curves are deleted unguarded, each found present, and nothing else changes |
| Isr.DropUnusedCurves | python/lsst/cp/testing/isr.py:226-234 | with the coarse flag each curve remains iff its own flag is set, and nothing else changes |
| Isr.DropOutputs | python/lsst/cp/testing/isr.py:238-251 | the outputs end up exactly as `OutputKept` says; the inputs and prerequisites are untouched |
| Isr.DropUnwritten | python/lsst/cp/testing/isr.py:238-242 | without `doWrite` all four outputs are deleted unguarded, each found present; with it all remain |
| Isr.DropOptionalProducts | python/lsst/cp/testing/isr.py:243-251 | each optional product remains iff it was there and its flag is set; the membership guards mean none of these deletions can fail |
| Isr.SignalChainGate | python/lsst/cp/testing/isr.py:199-205 | bias, linearizer, crosstalk and crosstalk sources are kept iff their flag is set |
| Isr.PixelCorrectionGate | python/lsst/cp/testing/isr.py:206-212 | both brighter-fatter kernels, the defects and the dark are kept iff their flag is set |
| Isr.FlatFieldGate | python/lsst/cp/testing/isr.py:213-236 | flat, fringes, stray light and the illumination image are kept iff their flag is set |
| Isr.PtcGate | python/lsst/cp/testing/isr.py:219-220 | the PTC is removed iff both `usePtcGains` and `usePtcReadNoise` are false |
| Isr.TransmissionCoarseGate | python/lsst/cp/testing/isr.py:221-225 | without `doAttachTransmissionCurve` no transmission curve is kept, whatever the per-curve flags say |
| Isr.TransmissionFineGate | python/lsst/cp/testing/isr.py:226-234 | with `doAttachTransmissionCurve` each curve is kept iff its own flag is set |
| Isr.WriteQaGate | python/lsst/cp/testing/isr.py:238-251 | the output exposure is kept iff `doWrite`; each other output iff `doWrite` and its own flag |
| Isr.UngatedSlotsRemain | python/lsst/cp/testing/isr.py:33-38 | the raw exposure is kept for every configuration, and nothing outside the declared slots is ever kept |
| Isr.AllFlagsOff | python/lsst/cp/testing/isr.py:196-251 | with every flag off, the only regular input kept is the raw exposure, and no output is kept |
| Isr.AdjustQuantum | python/lsst/cp/testing/isr.py:253-298 | the step-wise `doWork` computation returns exactly the `Admission` decision, including `MissingInput` without a raw-exposure reference and `MissingMetadata` when a configured check meets a data ID without its exposure record |
| Isr.AdmissionCases | python/lsst/cp/testing/isr.py:279-298 | given a raw exposure with its record, the quantum is skipped iff the type or the reason mismatches, and otherwise it is admitted with inputs and outputs unchanged |
| Isr.MinimalDataIdCases | python/lsst/cp/testing/isr.py:283-292 | a data ID without an exposure record fails iff some expectation is configured, and is admitted otherwise |
| Isr.DefaultAdmitsAll | python/lsst/cp/testing/isr.py:308-317 | with both expectations at their default `""`, every quantum with a raw exposure is admitted, whatever its data ID holds |
| Isr.OnlyFirstExposureMatters | python/lsst/cp/testing/isr.py:279-280 | two quanta whose first raw-exposure references carry the same data ID get the same kind of verdict |
| Isr.ConfiguredCaseIrrelevant | python/lsst/cp/testing/isr.py:283-292 | configurations whose expectations agree up to ASCII case decide every quantum alike |
| Isr.UpperCaseObservationSkipped | python/lsst/cp/testing/isr.py:283-287 | once a type is configured, an observed type containing an upper-case letter is always skipped, because the observed value is not lowered |
| Isr.MatchingTypeAnyCase | python/lsst/cp/testing/isr.py:283-287 | an observed type equal to the lowered configured type is no type mismatch |
| Isr.FlatLowered | python/lsst/cp/testing/isr.py:284 | the configured type "Flat" lowers to "flat" |
| Isr.CalibrationLowered | python/lsst/cp/testing/isr.py:290 | the configured reason "calibration" lowers to itself |
| Isr.FlatTypeExamples | python/lsst/cp/testing/isr.py:283-298 | with type "Flat" and no reason configured, a "flat" exposure is admitted and a "bias" exposure is skipped |
| Isr.FlatForScienceSkipped | python/lsst/cp/testing/isr.py:289-296 | with reason "calibration" also configured, a flat taken for "science" is skipped |
| Isr.FlatForCalibrationAdmitted | python/lsst/cp/testing/isr.py:283-298 | with reason "calibration" also configured, a flat taken for "calibration" is admitted |
| Cp.InitBrighterFatterKernelSolveConnections | python/lsst/cp/testing/cp.py:33-65 | the brighter-fatter kernel connections are the dummy exposure and the PTC as inputs, the camera as prerequisite and the kernel as output, for every configuration |
| Cp.InitPhotodiodeCorrectionConnections | python/lsst/cp/testing/cp.py:154-162 | the photodiode-correction connections are the PTC as the only input, for every configuration |
| Cp.LinearityInputs | python/lsst/cp/testing/cp.py:83-138 | applying both discards to the regular inputs leaves the declared inputs minus the photodiode correction exactly when its flag is not `True`; the photodiode-data discard removes nothing there |
| Cp.IntendedLinearityPrerequisites | python/lsst/cp/testing/cp.py:137-138 | the intended prerequisites are the camera, plus the photodiode data exactly when `usePhotodiode` is `True` |
| Cp.InitLinearitySolveConnections | python/lsst/cp/testing/cp.py:131-138 | as written: the regular inputs are `LinearityInputs(config)`, the prerequisites stay the camera and the photodiode data for every configuration, and the output is the linearizer |
| Cp.InitLinearitySolveConnectionsIntended | python/lsst/cp/testing/cp.py:131-138 | as intended: the same inputs and output, and the prerequisites are `IntendedLinearityPrerequisites(config)` |
| Cp.PhotodiodeDataAlwaysRequested | python/lsst/cp/testing/cp.py:106-138 | as written, `usePhotodiode` changes nothing: the photodiode data is a declared prerequisite and the inputs are those of `usePhotodiode = True`; the intended version drops it when the flag is not `True` |
| Cp.LinearityGates | python/lsst/cp/testing/cp.py:134-138 | the correction is absent from the inputs iff its flag is not `True`; the photodiode data is absent from the intended prerequisites iff its flag is not `True` |
| Cp.UnsetDiscards | python/lsst/cp/testing/cp.py:134-138 | unset (`None`) flags discard like false ones: the inputs are the dummy exposure and the PTC, and the intended prerequisites only the camera |
| Cp.BothTrueKeepsAll | python/lsst/cp/testing/cp.py:83-138 | with both flags `True`, the inputs and the intended prerequisites are the full declared sets |
| Cp.LinearityNeverRemoved | python/lsst/cp/testing/cp.py:83-138 | the dummy exposure, the PTC and the camera are never removed, and nothing outside the declared slots appears |
| Cp.LinearityRulesIndependent | python/lsst/cp/testing/cp.py:134-138 | the inputs depend only on the correction flag and the intended prerequisites only on the photodiode flag, so the two rules commute |

## Findings

| source | as written | input that shows it | evidently intended | confidence | as-written member | corrected member |
|---|---|---|---|---|---|---|
| python/lsst/cp/testing/cp.py:137-138 | `self.inputs.discard("inputPhotodiodeData")`, but `inputPhotodiodeData` is declared as a prerequisite input (cp.py:106), which the framework keeps outside `self.inputs`, so the discard finds nothing | `usePhotodiode = False` (or unset): the photodiode data stays among the prerequisites | drop the photodiode data from the prerequisite inputs unless `usePhotodiode` is `True` | medium: not executed; rests on the framework keeping prerequisite inputs in their own set; harmless in effect, since the slot is declared with `minimum=0` | Cp.InitLinearitySolveConnections, Cp.PhotodiodeDataAlwaysRequested | Cp.InitLinearitySolveConnectionsIntended, Cp.IntendedLinearityPrerequisites |

## Left out

- The framework's constructor and its own `adjustQuantum` (isr.py:197, 298; cp.py:132) are external calls into the pipeline framework.
  - The constructor becomes `Pipeline.Connections.constructor` over the declared slots.
  - An admitted quantum is returned unchanged as `Admitted`.
- Slot metadata is not modelled, because the framework alone consumes it. This covers dataset names, storage classes, dimensions, calibration and deferral flags, multiplicity, minimum counts and docs.
- The static-calibration lookup functions (cp.py:49, 97) are external.
- The task and config classes bind names to external algorithms. Only the configuration fields the connections and `adjustQuantum` read are modelled.
- `NoWorkFound` is an exception in the source and a result tag here.
- The `KeyError` or `IndexError` raised when a quantum has no `ccdExposure` reference (isr.py:279-280) is the result tag `MissingInput`.
- The failure to read the exposure record of a data ID without one (isr.py:285, 291) is the result tag `MissingMetadata`. Other ways the attribute chain could fail are not distinguished.
- A quantum maps each slot to its list of references. The connection object that the source's tuple also carries is dropped, since the decision never reads it.
- `label` and `data_id` are only passed on to the framework.
- Ascii.Lower: lower-cases ASCII letters only. The model does not capture Python's full Unicode case mapping.
- Observed values are compared as recorded. Only the configured value is lowered, so the comparison is case-insensitive on the configured side only (see `Isr.UpperCaseObservationSkipped`).
- Configuration flags of the ISR task are plain booleans.
- The linearity flags are tested with `is not True` and may be unset. They are modelled with `Unset`.
- The pipeline-definition tests load YAML files through the framework. They state no property of the logic above.
