/** The low-energy-excess reweighter (`lee::LEERW`): it turns a simulated
    electron-neutrino event into a weight that reproduces the excess observed
    by MiniBooNE. A weight has two factors. The sculpting factor is the ratio
    of two energy-by-angle histograms at the event's electron. The
    normalization factor is a product of exposure ratios and of two
    energy-dependent curves. */
module LEEReweight {
  import opened Common
  import opened Truth

  /** The exceptions the reweighter throws. */
  datatype LEEError =
    | MissingSourceFile          // initialize: no input file was given
    | MissingGeneratedCount      // initialize: the generated-event count is zero
    | MissingGeneratedHistName   // initialize: the generated histogram has no name
    | MissingTables              // a query before the graphs and histograms are loaded
    | MissingGeneratedEvents     // a query while the generated-event count is zero
    | NullTruth                  // std::invalid_argument: no truth record
    | NumuInteraction            // a muon neutrino in an electron-neutrino sample

  /** A ROOT graph: its number of control points and its interpolation. */
  datatype Graph1D = Graph1D(nPoints: nat, eval: real -> real)

  /** A ROOT 2-D histogram: its entry count, the bin finder of each axis, and
      the contents of its bins; a bin that is not in the map is empty. */
  datatype Hist2D = Hist2D(entries: real, xBin: real -> int, yBin: real -> int, content: map<(int, int), real>)

  /** The content of the bin that holds the point (x, y). */
  function BinContent(h: Hist2D, x: real, y: real): real
  {
    var k := (h.xBin(x), h.yBin(y));
    if k in h.content then h.content[k] else 0.0
  }

  /** Multiplies every bin by `c`; the entry count and the binning stay. */
  function Scale(h: Hist2D, c: real): (r: Hist2D)
    ensures r.entries == h.entries && r.xBin == h.xBin && r.yBin == h.yBin
    ensures forall x, y :: BinContent(r, x, y) == c * BinContent(h, x, y)
  {
    h.(content := map k | k in h.content :: c * h.content[k])
  }

  /** The file of graphs and histograms the reweighter loads from: given a
      file name and an object name, the object. */
  datatype TableStore = TableStore(graph: (string, string) -> Graph1D, hist: (string, string) -> Hist2D)

  /** Ratio of the cryostat's volume to the TPC's (171 t / 86 t). */
  const TPC_VOLUME_RATIO: real := 1.99

  /** The unit conversion applied to the MiniBooNE histogram after loading. */
  const MB_HIST_SCALE: real := 1.0 / 1000.0

  /** The generated-event count after one `initialize`. */
  function GeneratedAfterInit(n: real, onlyInTPC: bool): real
  {
    if onlyInTPC then n / TPC_VOLUME_RATIO else n
  }

  /** A second `initialize` divides the count again: it is not idempotent. */
  lemma InitializeNotIdempotent(n: real)
    requires n != 0.0
    ensures GeneratedAfterInit(GeneratedAfterInit(n, true), true) == n / (TPC_VOLUME_RATIO * TPC_VOLUME_RATIO)
    ensures GeneratedAfterInit(GeneratedAfterInit(n, true), true) != GeneratedAfterInit(n, true)
  {
  }

  /** The analysis job's own configuration: 6637 events generated in the TPC
      count as about 3335.18 events generated in the whole cryostat. */
  lemma GeneratedCountOfLEESample()
    ensures 3335.17 < GeneratedAfterInit(6637.0, true) < 3335.18
  {
  }

  /** The normalization factor: POT ratio, tonnage ratio, cross-section and
      flux ratios at the neutrino energy, and the observed excess per
      generated event. */
  function Normalization(pot: real, tonnage: real, xsec: real, flux: real, excess: real, generated: real): real
    requires generated != 0.0
  {
    pot * tonnage * xsec * flux * (excess / generated)
  }

  /** The normalization grows linearly with the number of excess events. */
  lemma NormalizationLinearInExcess(pot: real, tonnage: real, xsec: real, flux: real, excess: real, generated: real, k: real)
    requires generated != 0.0
    ensures Normalization(pot, tonnage, xsec, flux, k * excess, generated)
         == k * Normalization(pot, tonnage, xsec, flux, excess, generated)
  {
  }

  /** The normalization falls inversely with the number of generated events. */
  lemma NormalizationInverseInGenerated(pot: real, tonnage: real, xsec: real, flux: real, excess: real, generated: real, k: real)
    requires generated != 0.0 && k != 0.0
    ensures k * Normalization(pot, tonnage, xsec, flux, excess, k * generated)
         == Normalization(pot, tonnage, xsec, flux, excess, generated)
  {
  }

  /** What the reweighter needs from one truth record. */
  datatype EventInfo = EventInfo(
    electronEnergyMeV: real,
    electronUz: real,
    nueEnergyGeV: real,
    hasNeutrino: bool,
    nElectrons: nat)

  predicate IsNumu(p: McPart) { Abs(p.pdg) == NU_MU }
  predicate IsNue(p: McPart) { Abs(p.pdg) == NU_E }
  predicate IsFinalElectron(p: McPart) { p.status == 1 && Abs(p.pdg) == ELECTRON }

  predicate HasNumu(ps: seq<McPart>)
  {
    exists i :: 0 <= i < |ps| && IsNumu(ps[i])
  }

  /** The event information of a particle list with no muon neutrino: the
      last electron neutrino gives the neutrino energy, the last final-state
      electron gives the electron energy (in MeV) and direction, and the
      final-state electrons are counted; absent particles leave the defaults
      -1, -2 and -1. */
  function EventInfoOf(ps: seq<McPart>): EventInfo
  {
    var nu := LastMatch(ps, IsNue);
    var e := LastMatch(ps, IsFinalElectron);
    EventInfo(
      if e.Some? then e.value.startEnergy * 1000.0 else -1.0,
      if e.Some? then e.value.startCosTheta else -2.0,
      if nu.Some? then nu.value.startEnergy else -1.0,
      nu.Some?,
      Count(ps, IsFinalElectron))
  }

  /** An event the reweighter gives a non-zero weight to: a neutrino and
      exactly one final-state electron. */
  predicate Reweightable(info: EventInfo)
  {
    info.hasNeutrino && info.nElectrons == 1
  }

  /** Last-seen wins: with several final-state electrons, the electron
      kinematics are those of the last one in the record. */
  lemma ElectronLastSeenWins(pre: seq<McPart>, e: McPart, post: seq<McPart>)
    requires IsFinalElectron(e)
    requires forall i :: 0 <= i < |post| ==> !IsFinalElectron(post[i])
    ensures EventInfoOf(pre + [e] + post).electronEnergyMeV == e.startEnergy * 1000.0
    ensures EventInfoOf(pre + [e] + post).electronUz == e.startCosTheta
  {
    LastMatchIsLastSeen(pre, e, post, IsFinalElectron);
  }

  /** Last-seen wins for the neutrino energy too. */
  lemma NeutrinoLastSeenWins(pre: seq<McPart>, nu: McPart, post: seq<McPart>)
    requires IsNue(nu)
    requires forall i :: 0 <= i < |post| ==> !IsNue(post[i])
    ensures EventInfoOf(pre + [nu] + post).hasNeutrino
    ensures EventInfoOf(pre + [nu] + post).nueEnergyGeV == nu.startEnergy
  {
    LastMatchIsLastSeen(pre, nu, post, IsNue);
  }

  /** A particle whose status is not 1 is never counted as an electron,
      wherever it stands in the record. */
  lemma NonFinalParticleNotCounted(pre: seq<McPart>, p: McPart, post: seq<McPart>)
    requires p.status != 1
    ensures EventInfoOf(pre + [p] + post).nElectrons == EventInfoOf(pre + post).nElectrons
  {
    CountAppend(pre + [p], post, IsFinalElectron);
    CountAppend(pre, [p], IsFinalElectron);
    CountAppend(pre, post, IsFinalElectron);
    assert [p][..0] == [];
  }

  /** The truth scan. It fails on a missing record, and on a muon neutrino
      anywhere in the record whatever that particle's status, so it never
      returns a partly filled result. */
  method ExtractEventInfo(truth: Option<McTruth>) returns (r: Result<EventInfo, LEEError>)
    ensures truth.None? ==> r == Err(NullTruth)
    ensures truth.Some? && HasNumu(truth.value.particles) ==> r == Err(NumuInteraction)
    ensures truth.Some? && !HasNumu(truth.value.particles) ==> r == Ok(EventInfoOf(truth.value.particles))
  {
    var info := EventInfo(-1.0, -2.0, -1.0, false, 0);
    if truth.None? {
      return Err(NullTruth);
    }
    var ps := truth.value.particles;
    for i := 0 to |ps|
      invariant forall j :: 0 <= j < i ==> !IsNumu(ps[j])
      invariant info == EventInfoOf(ps[..i])
    {
      var p := ps[i];
      var pdg := Abs(p.pdg);
      assert ps[..i + 1][..i] == ps[..i] && ps[..i + 1][i] == p;
      if pdg == NU_MU {
        return Err(NumuInteraction);
      }
      if pdg == NU_E {
        info := info.(hasNeutrino := true, nueEnergyGeV := p.startEnergy);
      }
      if p.status != 1 {
        continue;
      }
      if pdg == ELECTRON {
        info := info.(nElectrons := info.nElectrons + 1,
                      electronEnergyMeV := p.startEnergy * 1000.0,
                      electronUz := p.startCosTheta);
      }
    }
    assert ps[..|ps|] == ps;
    return Ok(info);
  }

  class LEERW {
    var sourceFilename: string
    var nGeneratedEvts: real
    var eventsGeneratedOnlyInTPC: bool
    var debug: bool
    var fluxRatioName: string
    var xsecRatioName: string
    var mbEvisUzCorrName: string
    var generatedEvisUzCorrName: string

    var fluxRatio: Graph1D
    var xsecRatio: Graph1D
    /** The MiniBooNE excess, binned in electron energy (MeV) and direction. */
    var mbEvisUzCorr: Hist2D
    /** The generated sample, binned the same way. */
    var generatedEvisUzCorr: Hist2D

    const potWeight: real
    const tonnageWeight: real
    const trueMBExcessEvts: real

    /** A reweighter with its object names and calibration constants set, no
        input file, no generated events and nothing loaded. */
    constructor (fluxName: string, xsecName: string, mbName: string, generatedName: string,
                 pot: real, tonnage: real, excess: real)
      ensures sourceFilename == [] && nGeneratedEvts == 0.0 && !eventsGeneratedOnlyInTPC && !debug
      ensures fluxRatioName == fluxName && xsecRatioName == xsecName
      ensures mbEvisUzCorrName == mbName && generatedEvisUzCorrName == generatedName
      ensures potWeight == pot && tonnageWeight == tonnage && trueMBExcessEvts == excess
      ensures fluxRatio.nPoints == 0 && xsecRatio.nPoints == 0
      ensures mbEvisUzCorr.entries == 0.0 && generatedEvisUzCorr.entries == 0.0
      ensures !Ready()
    {
      sourceFilename, nGeneratedEvts := [], 0.0;
      eventsGeneratedOnlyInTPC, debug := false, false;
      fluxRatioName, xsecRatioName := fluxName, xsecName;
      mbEvisUzCorrName, generatedEvisUzCorrName := mbName, generatedName;
      fluxRatio := Graph1D(0, _ => 0.0);
      xsecRatio := Graph1D(0, _ => 0.0);
      mbEvisUzCorr := Hist2D(0.0, _ => 0, _ => 0, map[]);
      generatedEvisUzCorr := Hist2D(0.0, _ => 0, _ => 0, map[]);
      potWeight, tonnageWeight, trueMBExcessEvts := pot, tonnage, excess;
    }

    /** Both graphs have points and both histograms have entries. */
    predicate TablesLoaded()
      reads this
    {
      fluxRatio.nPoints != 0 && xsecRatio.nPoints != 0 &&
      mbEvisUzCorr.entries != 0.0 && generatedEvisUzCorr.entries != 0.0
    }

    /** The state in which every query may run. */
    predicate Ready()
      reads this
    {
      TablesLoaded() && nGeneratedEvts != 0.0
    }

    /** The configuration `initialize` demands. */
    predicate ConfigComplete()
      reads this
    {
      sourceFilename != [] && nGeneratedEvts != 0.0 && generatedEvisUzCorrName != []
    }

    /** The guard every query runs first. */
    function CheckIsInitialized(): (r: Outcome<LEEError>)
      reads this
      ensures r.Pass? <==> Ready()
      ensures !TablesLoaded() ==> r == Fail(MissingTables)
      ensures TablesLoaded() && nGeneratedEvts == 0.0 ==> r == Fail(MissingGeneratedEvents)
    {
      if !TablesLoaded() then Fail(MissingTables)
      else if nGeneratedEvts == 0.0 then Fail(MissingGeneratedEvents)
      else Pass
    }

    /** Validates the configuration, then applies the TPC-volume correction
        to the generated count, loads the four tables and scales the
        MiniBooNE histogram to its unit. Nothing changes when it throws. The
        histograms are reloaded on every call, so they are scaled once; the
        count is divided again on every call. */
    method Initialize(store: TableStore) returns (r: Outcome<LEEError>)
      modifies this
      ensures old(sourceFilename) == [] ==> r == Fail(MissingSourceFile)
      ensures old(sourceFilename) != [] && old(nGeneratedEvts) == 0.0 ==> r == Fail(MissingGeneratedCount)
      ensures old(sourceFilename) != [] && old(nGeneratedEvts) != 0.0 && old(generatedEvisUzCorrName) == []
              ==> r == Fail(MissingGeneratedHistName)
      ensures r.Pass? <==> old(ConfigComplete())
      ensures r.Fail? ==> unchanged(this)
      ensures sourceFilename == old(sourceFilename) && eventsGeneratedOnlyInTPC == old(eventsGeneratedOnlyInTPC)
      ensures debug == old(debug) && fluxRatioName == old(fluxRatioName) && xsecRatioName == old(xsecRatioName)
      ensures mbEvisUzCorrName == old(mbEvisUzCorrName) && generatedEvisUzCorrName == old(generatedEvisUzCorrName)
      ensures r.Pass? ==> nGeneratedEvts == GeneratedAfterInit(old(nGeneratedEvts), eventsGeneratedOnlyInTPC)
      ensures r.Pass? ==> fluxRatio == store.graph(sourceFilename, fluxRatioName)
      ensures r.Pass? ==> xsecRatio == store.graph(sourceFilename, xsecRatioName)
      ensures r.Pass? ==> mbEvisUzCorr == Scale(store.hist(sourceFilename, mbEvisUzCorrName), MB_HIST_SCALE)
      ensures r.Pass? ==> generatedEvisUzCorr == store.hist(sourceFilename, generatedEvisUzCorrName)
      ensures r.Pass? ==> nGeneratedEvts != 0.0 && (Ready() <==> TablesLoaded())
    {
      if sourceFilename == [] {
        return Fail(MissingSourceFile);
      }
      if nGeneratedEvts == 0.0 {
        return Fail(MissingGeneratedCount);
      }
      if generatedEvisUzCorrName == [] {
        return Fail(MissingGeneratedHistName);
      }
      if eventsGeneratedOnlyInTPC {
        nGeneratedEvts := nGeneratedEvts / TPC_VOLUME_RATIO;
      }
      fluxRatio := store.graph(sourceFilename, fluxRatioName);
      xsecRatio := store.graph(sourceFilename, xsecRatioName);
      mbEvisUzCorr := store.hist(sourceFilename, mbEvisUzCorrName);
      generatedEvisUzCorr := store.hist(sourceFilename, generatedEvisUzCorrName);
      mbEvisUzCorr := Scale(mbEvisUzCorr, MB_HIST_SCALE);
      return Pass;
    }

    /** The sculpting factor at electron energy `e` (MeV) and direction
        `uz`: the MiniBooNE bin over the generated bin, and exactly 0 where
        the generated bin is empty. */
    function SculptingWeight(e: real, uz: real): (r: Result<real, LEEError>)
      reads this
      ensures !Ready() ==> r == Err(CheckIsInitialized().error)
      ensures Ready() ==> r.Ok?
      ensures r.Ok? && BinContent(generatedEvisUzCorr, e, uz) == 0.0 ==> r.value == 0.0
      ensures r.Ok? && BinContent(generatedEvisUzCorr, e, uz) != 0.0 ==>
              r.value * BinContent(generatedEvisUzCorr, e, uz) == BinContent(mbEvisUzCorr, e, uz)
    {
      var check := CheckIsInitialized();
      if check.Fail? then Err(check.error)
      else
        var numerator := BinContent(mbEvisUzCorr, e, uz);
        var denominator := BinContent(generatedEvisUzCorr, e, uz);
        if denominator == 0.0 then Ok(0.0) else Ok(numerator / denominator)
    }

    /** The normalization factor at neutrino energy `nueEnergyGeV`, built up
        one factor at a time. */
    method NormalizedWeight(nueEnergyGeV: real) returns (r: Result<real, LEEError>)
      ensures !Ready() ==> r == Err(CheckIsInitialized().error)
      ensures Ready() ==> r == Ok(Normalization(potWeight, tonnageWeight, xsecRatio.eval(nueEnergyGeV),
                                                fluxRatio.eval(nueEnergyGeV), trueMBExcessEvts, nGeneratedEvts))
    {
      var check := CheckIsInitialized();
      if check.Fail? {
        return Err(check.error);
      }
      var weight := 1.0;
      weight := weight * potWeight;
      weight := weight * tonnageWeight;
      assert weight == potWeight * tonnageWeight;
      var factor := xsecRatio.eval(nueEnergyGeV);
      weight := weight * factor;
      factor := fluxRatio.eval(nueEnergyGeV);
      weight := weight * factor;
      assert weight == potWeight * tonnageWeight * xsecRatio.eval(nueEnergyGeV) * fluxRatio.eval(nueEnergyGeV);
      factor := trueMBExcessEvts / nGeneratedEvts;
      weight := weight * factor;
      assert weight == Normalization(potWeight, tonnageWeight, xsecRatio.eval(nueEnergyGeV),
                                     fluxRatio.eval(nueEnergyGeV), trueMBExcessEvts, nGeneratedEvts);
      return Ok(weight);
    }

    /** The sculpting factor of a truth record: 0 unless the record holds a
        neutrino and exactly one final-state electron. */
    method SculptingWeightOf(truth: Option<McTruth>) returns (r: Result<real, LEEError>)
      ensures !Ready() ==> r == Err(CheckIsInitialized().error)
      ensures Ready() && truth.None? ==> r == Err(NullTruth)
      ensures Ready() && truth.Some? && HasNumu(truth.value.particles) ==> r == Err(NumuInteraction)
      ensures Ready() && truth.Some? && !HasNumu(truth.value.particles) ==>
              var info := EventInfoOf(truth.value.particles);
              r == if Reweightable(info) then SculptingWeight(info.electronEnergyMeV, info.electronUz) else Ok(0.0)
    {
      var check := CheckIsInitialized();
      if check.Fail? {
        return Err(check.error);
      }
      var extracted := ExtractEventInfo(truth);
      if extracted.Err? {
        return Err(extracted.error);
      }
      var info := extracted.value;
      if !info.hasNeutrino || info.nElectrons != 1 {
        return Ok(0.0);
      }
      return SculptingWeight(info.electronEnergyMeV, info.electronUz);
    }

    /** The normalization factor of a truth record: 0 unless the record
        holds a neutrino and exactly one final-state electron. */
    method NormalizedWeightOf(truth: Option<McTruth>) returns (r: Result<real, LEEError>)
      ensures !Ready() ==> r == Err(CheckIsInitialized().error)
      ensures Ready() && truth.None? ==> r == Err(NullTruth)
      ensures Ready() && truth.Some? && HasNumu(truth.value.particles) ==> r == Err(NumuInteraction)
      ensures Ready() && truth.Some? && !HasNumu(truth.value.particles) ==>
              var info := EventInfoOf(truth.value.particles);
              r == if Reweightable(info)
                   then Ok(Normalization(potWeight, tonnageWeight, xsecRatio.eval(info.nueEnergyGeV),
                                         fluxRatio.eval(info.nueEnergyGeV), trueMBExcessEvts, nGeneratedEvts))
                   else Ok(0.0)
    {
      var check := CheckIsInitialized();
      if check.Fail? {
        return Err(check.error);
      }
      var extracted := ExtractEventInfo(truth);
      if extracted.Err? {
        return Err(extracted.error);
      }
      var info := extracted.value;
      if !info.hasNeutrino || info.nElectrons != 1 {
        return Ok(0.0);
      }
      r := NormalizedWeight(info.nueEnergyGeV);
    }
  }

  /** After a successful `initialize`, the sculpting factor is the raw
      MiniBooNE bin divided by 1000, over the raw generated bin. */
  lemma SculptingUsesScaledObserved(mbRaw: Hist2D, generated: Hist2D, e: real, uz: real, w: real)
    requires BinContent(generated, e, uz) != 0.0
    requires w * BinContent(generated, e, uz) == BinContent(Scale(mbRaw, MB_HIST_SCALE), e, uz)
    ensures w == BinContent(mbRaw, e, uz) / (1000.0 * BinContent(generated, e, uz))
  {
  }
}
