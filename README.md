# Low-energy-excess analysis core, in Dafny

This project models the event-level logic of the MicroBooNE low-energy-excess
(LEE) analysis plugins. There are three parts:

- **The LEE reweighter** (`LEEReweight.LEERW`). It turns a simulated
  electron-neutrino event into the weight that reproduces MiniBooNE's excess.
  The weight is a *sculpting* factor times a *normalization* factor:
  - the sculpting factor is the ratio of the observed energy-by-angle
    histogram to the generated one at the event's electron;
  - the normalization factor is the POT ratio × the tonnage ratio ×
    cross-section(E) × flux(E) × (excess events / generated events).

  The model covers its one-shot `initialize`, the initialization guard,
  both overloads of both weight queries, and the truth-record scan that
  extracts the electron and neutrino kinematics.
- **Three Monte-Carlo event filters.** Each counts the events it sees and the
  events it keeps:
  - `MC_LEE_1e1p_Filter` keeps an event with exactly one electron, whose
    kinetic energy must lie between 0.1 and 1.5 GeV, exactly one proton
    at or above 60 MeV, and no photon, pion, muon or charged kaon
    (particles whose status is not 1, and particles under 20 MeV, are
    ignored);
  - `MC_dirt_Filter` keeps an event when no neutrino ends inside the TPC;
  - `MC_cosmic_Filter` keeps an event when the last truth record is cosmic
    or of unknown origin.
- **The helpers of the analysis module `ERAnaLowEnergyExcess`:**
  - the event weight: flux reweighting of the first beam neutrino for a beam
    sample, the LEE reweighter for the excess sample, and 1 for cosmics;
  - the flux reweighter's neutrino and parent-process codes;
  - the simple-interaction test;
  - the nearest-wall distances of the B.I.T.E. variables;
  - the per-event reset of the tree variables;
  - the reconstructed-νe count that decides whether an event is analysed.

Modules:

- `Common`: Option and Result, counting, and the last match of a sequence.
- `Truth`: generator truth records, PDG codes, and the axis-aligned box.
- `LEEReweight`
- `Filter1e1p`, `FilterDirt`, `FilterCosmic`
- `LowEnergyExcess`

The two kinds of failure are modelled as follows:

- C++ exceptions become `Err`/`Fail` values;
- a missing data product or a null truth pointer becomes `None`.

Each filter's per-event decision loop is a method that changes nothing and is
proved equal to a predicate over the records. The filter class's `Analyze`
calls it and updates the counters, and it preserves `kept <= total`.

## Model

| member | source | states |
|---|---|---|
| LEEReweight.Scale | LEEReweight/LEERW.cxx:36 | scaling a histogram multiplies every bin content by the factor and keeps the entry count and the binning |
| LEEReweight.InitializeNotIdempotent | LEEReweight/LEERW.cxx:23 | a second `initialize` of a TPC-only sample divides the generated count by 1.99 again: the result is n/1.99² and differs from n/1.99 |
| LEEReweight.GeneratedCountOfLEESample | ERAnalysis/ERAnaLowEnergyExcess.cxx:21-24 | the analysis job's 6637 TPC-generated events count as between 3335.17 and 3335.18 cryostat events |
| LEEReweight.NormalizationLinearInExcess | LEEReweight/LEERW.cxx:156-168 | the normalization factor scales linearly with the number of MiniBooNE excess events |
| LEEReweight.NormalizationInverseInGenerated | LEEReweight/LEERW.cxx:156-168 | the normalization factor is inversely proportional to the number of generated events |
| LEEReweight.ElectronLastSeenWins | LEEReweight/LEERW.cxx:201-206 | with several final-state electrons, the electron energy (×1000, in MeV) and direction are those of the last one |
| LEEReweight.NeutrinoLastSeenWins | LEEReweight/LEERW.cxx:196-199 | the last νe of the record sets the neutrino flag and the neutrino energy, whatever its status |
| LEEReweight.NonFinalParticleNotCounted | LEEReweight/LEERW.cxx:200-203 | a particle whose status is not 1 never changes the electron count, wherever it stands |
| LEEReweight.ExtractEventInfo | LEEReweight/LEERW.cxx:175-210 | a null record fails with the invalid-argument error; a νμ anywhere (any status) fails with the numu error and no partial result; otherwise the result is the last-seen/counted event information starting from the defaults −1, −2, −1 |
| LEEReweight.LEERW.CheckIsInitialized | LEEReweight/LEERW.cxx:212-220 | passes iff both curves have points, both histograms have entries and the generated count is non-zero; the missing-tables error comes before the missing-count error |
| LEEReweight.LEERW.Initialize | LEEReweight/LEERW.cxx:8-42 | fails, in source order and changing nothing, on an empty file name, a zero count or an empty generated-histogram name; otherwise divides the count by 1.99 when generated only in the TPC, loads the four tables, scales only the observed histogram by 1/1000, and keeps the configuration |
| LEEReweight.LEERW.SculptingWeight | LEEReweight/LEERW.cxx:65-101 | fails with the guard's error when not initialized; otherwise it is exactly 0 on an empty generated bin and else the value whose product with the generated bin is the observed bin |
| LEEReweight.LEERW.NormalizedWeight | LEEReweight/LEERW.cxx:124-173 | fails with the guard's error when not initialized; otherwise the step-by-step product equals POT × tonnage × xsec(E) × flux(E) × excess/generated |
| LEEReweight.LEERW.SculptingWeightOf | LEEReweight/LEERW.cxx:44-63 | guard error first, then the scan's errors; 0 unless the record has a νe and exactly one final-state electron; otherwise the sculpting factor at that electron |
| LEEReweight.LEERW.NormalizedWeightOf | LEEReweight/LEERW.cxx:103-122 | guard error first, then the scan's errors; 0 unless the record has a νe and exactly one final-state electron; otherwise the normalization at the νe energy |
| LEEReweight.SculptingUsesScaledObserved | LEEReweight/LEERW.cxx:36 | after `initialize`, a sculpting factor equals the raw observed bin over 1000 times the generated bin |
| Filter1e1p.SkippedParticleIrrelevant | EventFilters/MC_LEE_1e1p_Filter.cxx:36-45 | inserting a particle with status ≠ 1 or kinetic energy under 20 MeV anywhere never changes the selection |
| Filter1e1p.Select | EventFilters/MC_LEE_1e1p_Filter.cxx:29-98 | the loop with its early returns keeps the event iff no considered electron lies outside 0.1–1.5 GeV, no considered γ, π±, π⁰, μ or K± is present, exactly one electron is considered and exactly one proton has KE ≥ 0.060 GeV |
| Filter1e1p.MC_LEE_1e1p_Filter.Initialize | EventFilters/MC_LEE_1e1p_Filter.cxx:8-15 | both counters become 0 |
| Filter1e1p.MC_LEE_1e1p_Filter.Analyze | EventFilters/MC_LEE_1e1p_Filter.cxx:17-102 | a missing product is rejected uncounted; otherwise the event is counted once; an empty list is the out-of-range error of `at(0)`; else the result is the rule on the first record; kept grows iff accepted, and kept ≤ total is preserved |
| FilterDirt.ScanRecords | EventFilters/MC_dirt_Filter.cxx:40-48 | the loop returns true iff no record's neutrino end point is in the box; once false it stays false |
| FilterDirt.MC_dirt_Filter.Initialize | EventFilters/MC_dirt_Filter.cxx:9-23 | sets the TPC box from the geometry and both counters to 0 |
| FilterDirt.MC_dirt_Filter.Analyze | EventFilters/MC_dirt_Filter.cxx:25-54 | a missing product is rejected uncounted; an empty list is counted and rejected; otherwise the scan's result; kept grows iff the result is true, and kept ≤ total is preserved |
| FilterCosmic.ScanRecords | EventFilters/MC_cosmic_Filter.cxx:26-41 | the overwriting loop returns true iff the list is non-empty and the last record's origin is cosmic or unknown |
| FilterCosmic.MC_cosmic_Filter.Initialize | EventFilters/MC_cosmic_Filter.cxx:8-14 | both counters become 0 |
| FilterCosmic.MC_cosmic_Filter.Analyze | EventFilters/MC_cosmic_Filter.cxx:16-46 | a missing product is rejected uncounted; otherwise the event is counted and the last record decides (an empty list is rejected); kept grows iff accepted, and kept ≤ total is preserved |
| LowEnergyExcess.NeutrinoTypeCode | ERAnalysis/ERAnaLowEnergyExcess.cxx:229-236 | the code is in 0..4, it is 0 exactly for PDG codes other than ±12 and ±14, and each non-zero code decodes back to its PDG code |
| LowEnergyExcess.ProcessTypeCode | ERAnalysis/ERAnaLowEnergyExcess.cxx:230-241 | the code is in 0..4, it is 0 exactly for processes other than μ, π, K0L and K± decay, and each non-zero code decodes back to its process |
| LowEnergyExcess.FirstFluxNeutrino | ERAnalysis/ERAnaLowEnergyExcess.cxx:224-227 | the position found holds a νe/νμ that is its own ancestor and no earlier particle is one; None iff no particle is one |
| LowEnergyExcess.FirstFluxNeutrinoDecides | ERAnalysis/ERAnaLowEnergyExcess.cxx:227-256 | the first self-ancestral neutrino is found whatever follows it |
| LowEnergyExcess.BeamWeightIgnoresLaterParticles | ERAnalysis/ERAnaLowEnergyExcess.cxx:224-257 | a beam sample's weight is the flux weight of the first beam neutrino, and particles after it cannot change it |
| LowEnergyExcess.IsInteractionSimple | ERAnalysis/ERAnaLowEnergyExcess.cxx:390-404 | the counting loops return true iff every descendant and every sibling has PDG code 2212 |
| LowEnergyExcess.NearestWallDistance | ERAnalysis/ERAnaLowEnergyExcess.cxx:437-446 | the per-axis distance is one of the two wall distances and no larger than either |
| LowEnergyExcess.ClosestWallAsWritten | ERAnalysis/ERAnaLowEnergyExcess.cxx:448-450 | the three guards as written store the smallest distance unless x is strictly the largest; then they store nothing and the previous value stays |
| LowEnergyExcess.ClosestWallAsWrittenCounterexample | ERAnalysis/ERAnaLowEnergyExcess.cxx:437-450 | a shower start at (128, 100, 10) in a 256 × 232 × 1036 cm TPC: the nearest wall is 10 cm away, but whatever value the variable held before is kept |
| LowEnergyExcess.ClosestWall | ERAnalysis/ERAnaLowEnergyExcess.cxx:448-450 | the corrected selection is one of the three distances and no larger than any |
| LowEnergyExcess.InsideTPCIffNonNegativeDist2Wall | ERAnalysis/ERAnaLowEnergyExcess.cxx:27-33 | a point lies in the TPC box (the active volume of lines 28-33, and the dirt filter's box) iff its nearest-wall distance is not negative |
| LowEnergyExcess.Dist2WallIsNearest | ERAnalysis/ERAnaLowEnergyExcess.cxx:436-466 | for a point inside the TPC, the intended (corrected) nearest-wall distance `Dist2Wall` is non-negative and no larger than the distance to any of the six walls; the value `FillBITEVariables` stores follows the as-written guards and can be the previous one (`ClosestWallAsWritten`) |
| LowEnergyExcess.ERAnaLowEnergyExcess.constructor | ERAnalysis/ERAnaLowEnergyExcess.h:105-109 | a new module is not in LEE-sample mode and owns a fresh, not yet ready reweighter (held by value, never shared) built from the given object names and constants |
| LowEnergyExcess.ERAnaLowEnergyExcess.ProcessBegin | ERAnalysis/ERAnaLowEnergyExcess.cxx:15-35 | outside LEE mode the reweighter is untouched; in LEE mode it is configured with the tables file, no debug output and 6637 TPC-only events, then initialized, keeping its object names. Initialization succeeds iff the generated-histogram name was set. On success the count is 6637/1.99, the two curves and the generated histogram are the file's objects, and the observed histogram is the file's scaled by 1/1000. On failure it is the missing-name error, the count stays 6637 and no table changes. The active volume becomes the TPC box when no error occurred; after a failed initialization (the exception leaves at line 24) it is not built |
| LowEnergyExcess.ERAnaLowEnergyExcess.ResetTreeVariables | ERAnalysis/ERAnaLowEnergyExcess.cxx:312-346 | every variable the reset lists takes its sentinel (0, −1, −999, −99999, −999999999, false); the weight and both closest-wall distances keep their values |
| LowEnergyExcess.ERAnaLowEnergyExcess.GetWeight | ERAnalysis/ERAnaLowEnergyExcess.cxx:209-269 | the weight is the flux weight of the first beam neutrino (setting `ptype` to its parent code), or 1 without one; in LEE mode it is sculpting(last e energy, last e uz) × normalization(last νe energy/1000, default 1 GeV), or the reweighter's error; nothing else changes |
| LowEnergyExcess.ERAnaLowEnergyExcess.Analyze | ERAnalysis/ERAnaLowEnergyExcess.cxx:38-62 | `nNuesInEvt` is the number of \|PDG\| = 12 particles; without one the event is rejected with every reset variable at its sentinel and the weight and closest-wall distances untouched; otherwise the stored weight and `ptype` are those of `GetWeight` (lines 161-165), or the reweighter's error with the weight untouched |
| LowEnergyExcess.ERAnaLowEnergyExcess.FillBITEVariables | ERAnalysis/ERAnaLowEnergyExcess.cxx:406-466 | the two back-projected wall distances become the given exit distances, or 999 without one; each closest-wall distance becomes the as-written selection over the point's per-axis distances, which keeps the previous value when x is strictly the largest; no other variable changes |

## Left out

- ROOT: graphs are a point count plus an interpolation function, and
  histograms are an entry count, two bin finders and a bin-content map.
  `Integral`, the interpolation policy of `Eval`, and the bin finding itself
  are not part of this model.
- `PlotReader` file access: the tables file is a `TableStore` parameter
  (file name × object name → object). Errors while reading it are not
  modelled.
- LEERW.h is not part of this model. Its default values become constructor
  parameters: the object names, the POT and tonnage ratios, and the excess
  count. The other starting values are assumed: an empty file name, a
  generated count of 0, the TPC-only and debug flags off, and curves and
  histograms with no points or entries (so a new reweighter is not ready).
- `_n_generated_evts` is taken to be a floating-point count (`real`). With an
  integer type, the division by 1.99 would truncate, to 3335 for the LEE
  sample.
- No explicit lifecycle (`Unconfigured → Configured → Initialized`) is
  modelled, because the code has no such state. `initialize` may be called
  again, and it divides the count again (`InitializeNotIdempotent`).
- Floating point: all quantities are exact reals, with no IEEE rounding.
  Angle cosines are inputs and are not computed from momenta.
- Trajectory access: `Trajectory().at(0)` and `Trajectory().back()` on an
  empty trajectory are not modelled. A particle carries its start energy and
  direction, and a truth record carries its neutrino's end point.
- `AABox::Contain` of the geometry library is taken as an inclusive bounds
  test.
- FillBITEVariables: the half-line/box intersection of the geometry library
  (lines 410-427) is not computed. Its result, the distance to the first
  crossing if there is one, is a parameter.
- `_fluxRW.get_weight` is a parameter of `GetWeight`. The detector geometry
  singleton becomes constructor parameters.
- ERAnaLowEnergyExcess.Analyze: everything except the reset, the νe count
  and the weight is left out, because it reads the reconstructed-shower and
  graph services or only fills the tree. This covers lines 64-160 and 166
  onward: shower matching, energies, `ComputeECCQE`, flash timing, and the
  call of `FillBITEVariables`. For an accepted event the model therefore
  says nothing about the variables those lines set.
- EnuCaloMissingPt and FillRecoNuEnergies: these are floating-point energy
  sums over the external particle graph.
- Tree and console output are left out: `PrepareTreeVariables`, tree
  filling, `finalize`/`ProcessEnd`, `print_evt_info` and every diagnostic
  message. The unknown-origin warning of the cosmic filter is one of these.
- Setters and the header-only `_flip` flag are not modelled. The LEE-mode
  flag is a plain field.
- The generator origin lists the five `simb::Origin_t` values. Process
  types other than the four decay processes and `PiZeroMID` collapse to
  `OtherProcess`.
- The tree variables are one record-valued field, `row`. Each C++ member
  variable is a field of that record, not a field of the class.
- ResetTreeVariables: the code does not reset the two closest-perpendicular
  wall distances, so they keep the previous event's values. The model
  follows the code here, not the expectation that they read −999 after a
  reset.
- The `MC_CCnumu_Filter` header and the Python driver script carry no logic.
  They are not part of this model.

## Findings

| source | as written | input that shows it | evidently intended | confidence | as-written member | corrected member |
|---|---|---|---|---|---|---|
| ERAnalysis/ERAnaLowEnergyExcess.cxx:448-450 (and 464-466) | the y and z branches test `y <= x && x <= z` and `z <= x && x <= y`, comparing against x rather than against each other, so when x is strictly the largest of the three distances no branch stores anything | shower start (128, 100, 10) in a 256 × 232 × 1036 cm TPC: distances 128, 16 and 10; nothing is stored and the variable keeps the previous event's distance (the reset does not touch it) | store the smallest of the three per-axis distances (10) | high; not executed | LowEnergyExcess.ClosestWallAsWrittenCounterexample | LowEnergyExcess.ClosestWall |
