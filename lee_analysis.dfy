/** The low-energy-excess analysis module (`ertool::ERAnaLowEnergyExcess`):
    its event weight (flux reweighting for beam samples, the LEE reweighter
    for the excess sample), the simple-interaction test, the nearest-wall
    distances of the B.I.T.E. variables, the per-event reset of its output
    variables, and the neutrino count that decides whether an event is
    analysed at all. */
module LowEnergyExcess {
  import opened Common
  import opened Truth
  import opened LEEReweight

  /** How a particle of the graph was produced (ertool process types; the
      ones this module does not distinguish are `OtherProcess`). */
  datatype ProcessType = MuDecay | PionDecay | K0L | KCharged | PiZeroMID | OtherProcess

  /** A node of an ertool particle graph: its node id, the id of its oldest
      ancestor, its PDG code, its energy (MeV), the cosine of its momentum's
      polar angle, and its process type. */
  datatype GraphParticle = GraphParticle(id: int, ancestor: int, pdg: int, energy: real, cosTheta: real, process: ProcessType)

  /** The flux reweighter's neutrino type: 1 for a nu_e, 2 for an anti-nu_e,
      3 for a nu_mu, 4 for an anti-nu_mu, 0 for anything else. */
  function NeutrinoTypeCode(pdg: int): (c: int)
    ensures 0 <= c <= 4
    ensures c == 0 <==> pdg !in {NU_E, -NU_E, NU_MU, -NU_MU}
    ensures c != 0 ==> NeutrinoOfTypeCode(c) == pdg
  {
    if pdg == NU_E then 1
    else if pdg == -NU_E then 2
    else if pdg == NU_MU then 3
    else if pdg == -NU_MU then 4
    else 0
  }

  /** The neutrino each non-zero type code stands for. */
  function NeutrinoOfTypeCode(c: int): (pdg: int)
    requires 1 <= c <= 4
    ensures pdg in {NU_E, -NU_E, NU_MU, -NU_MU}
  {
    match c
    case 1 => NU_E
    case 2 => -NU_E
    case 3 => NU_MU
    case _ => -NU_MU
  }

  /** The flux reweighter's parent type: 1 for a muon decay, 2 for a pion
      decay, 3 for a K0L decay, 4 for a charged-kaon decay, 0 otherwise. */
  function ProcessTypeCode(p: ProcessType): (c: int)
    ensures 0 <= c <= 4
    ensures c == 0 <==> p !in {MuDecay, PionDecay, K0L, KCharged}
    ensures c != 0 ==> ProcessOfTypeCode(c) == p
  {
    match p
    case K0L => 3
    case KCharged => 4
    case MuDecay => 1
    case PionDecay => 2
    case _ => 0
  }

  /** The process each non-zero parent code stands for. */
  function ProcessOfTypeCode(c: int): (p: ProcessType)
    requires 1 <= c <= 4
    ensures p in {MuDecay, PionDecay, K0L, KCharged}
  {
    match c
    case 1 => MuDecay
    case 2 => PionDecay
    case 3 => K0L
    case _ => KCharged
  }

  predicate IsNueNode(p: GraphParticle) { Abs(p.pdg) == NU_E }
  predicate IsElectronNode(p: GraphParticle) { Abs(p.pdg) == ELECTRON }

  /** A beam neutrino: an electron or muon neutrino that is its own
      ancestor, so not the product of a decay inside the event. */
  predicate IsFluxNeutrino(p: GraphParticle)
  {
    (Abs(p.pdg) == NU_E || Abs(p.pdg) == NU_MU) && p.ancestor == p.id
  }

  /** The position of the first beam neutrino of the graph, if any. */
  function FirstFluxNeutrino(g: seq<GraphParticle>): (r: Option<nat>)
    ensures r.Some? ==> r.value < |g| && IsFluxNeutrino(g[r.value])
    ensures r.Some? ==> forall j :: 0 <= j < r.value ==> !IsFluxNeutrino(g[j])
    ensures r.None? ==> forall j :: 0 <= j < |g| ==> !IsFluxNeutrino(g[j])
  {
    if g == [] then None
    else if IsFluxNeutrino(g[0]) then Some(0)
    else match FirstFluxNeutrino(g[1..])
      case None => None
      case Some(k) => Some(k + 1)
  }

  /** The flux weight of a beam neutrino: its energy in GeV, its neutrino
      code and its parent code, handed to the flux reweighter. */
  function FluxWeightOf(p: GraphParticle, fluxWeight: (real, int, int) -> real): real
  {
    fluxWeight(p.energy / 1000.0, NeutrinoTypeCode(p.pdg), ProcessTypeCode(p.process))
  }

  /** The neutrino energy (GeV) the LEE weight uses: the last electron
      neutrino's, 1 GeV if there is none. */
  function LEENeutrinoEnergy(g: seq<GraphParticle>): real
  {
    match LastMatch(g, IsNueNode)
    case Some(p) => p.energy / 1000.0
    case None => 1.0
  }

  /** The electron energy (MeV) the LEE weight uses: the last electron's,
      -1 if there is none. */
  function LEEElectronEnergy(g: seq<GraphParticle>): real
  {
    match LastMatch(g, IsElectronNode)
    case Some(p) => p.energy
    case None => -1.0
  }

  /** The electron direction the LEE weight uses: the last electron's, -2
      if there is none. */
  function LEEElectronUz(g: seq<GraphParticle>): real
  {
    match LastMatch(g, IsElectronNode)
    case Some(p) => p.cosTheta
    case None => -2.0
  }

  /** The event weight. For a beam sample: the flux weight of the first
      beam neutrino, or 1 (a cosmic event) if there is none. For the LEE
      sample: the sculpting factor at the last electron times the
      normalization at the last electron neutrino, or the reweighter's
      error if it is not initialized. */
  function ExpectedWeight(leeMode: bool, rw: LEERW, g: seq<GraphParticle>, fluxWeight: (real, int, int) -> real)
    : Result<real, LEEError>
    reads rw
  {
    if !leeMode then
      match FirstFluxNeutrino(g)
      case Some(k) => Ok(FluxWeightOf(g[k], fluxWeight))
      case None => Ok(1.0)
    else if !rw.Ready() then Err(rw.CheckIsInitialized().error)
    else
      var nuE := LEENeutrinoEnergy(g);
      Ok(rw.SculptingWeight(LEEElectronEnergy(g), LEEElectronUz(g)).value *
         Normalization(rw.potWeight, rw.tonnageWeight, rw.xsecRatio.eval(nuE), rw.fluxRatio.eval(nuE),
                       rw.trueMBExcessEvts, rw.nGeneratedEvts))
  }

  /** For a beam sample the first beam neutrino decides the weight: nothing
      after it matters. */
  lemma {:induction false} FirstFluxNeutrinoDecides(pre: seq<GraphParticle>, p: GraphParticle, post: seq<GraphParticle>)
    requires IsFluxNeutrino(p)
    requires forall j :: 0 <= j < |pre| ==> !IsFluxNeutrino(pre[j])
    ensures FirstFluxNeutrino(pre + [p] + post) == Some(|pre|)
    decreases |pre|
  {
    var g := pre + [p] + post;
    if pre == [] {
      assert g[0] == p;
    } else {
      assert g[0] == pre[0] && g[1..] == pre[1..] + [p] + post;
      FirstFluxNeutrinoDecides(pre[1..], p, post);
    }
  }

  /** Beam-sample weights of two graphs that agree up to and including
      their first beam neutrino are equal. */
  lemma BeamWeightIgnoresLaterParticles(rw: LEERW, pre: seq<GraphParticle>, p: GraphParticle,
                                        post1: seq<GraphParticle>, post2: seq<GraphParticle>,
                                        fluxWeight: (real, int, int) -> real)
    requires IsFluxNeutrino(p)
    requires forall j :: 0 <= j < |pre| ==> !IsFluxNeutrino(pre[j])
    ensures ExpectedWeight(false, rw, pre + [p] + post1, fluxWeight) == Ok(FluxWeightOf(p, fluxWeight))
    ensures ExpectedWeight(false, rw, pre + [p] + post1, fluxWeight) == ExpectedWeight(false, rw, pre + [p] + post2, fluxWeight)
  {
    FirstFluxNeutrinoDecides(pre, p, post1);
    FirstFluxNeutrinoDecides(pre, p, post2);
    assert (pre + [p] + post1)[|pre|] == p && (pre + [p] + post2)[|pre|] == p;
  }

  /** The simple-interaction test: every descendant and every sibling of
      the electron (given by their PDG codes) is a proton; an antiproton
      does not count as one. */
  method IsInteractionSimple(kidPdgs: seq<int>, broPdgs: seq<int>) returns (simple: bool)
    ensures simple <==> (forall i :: 0 <= i < |kidPdgs| ==> kidPdgs[i] == PROTON) &&
                        (forall i :: 0 <= i < |broPdgs| ==> broPdgs[i] == PROTON)
  {
    var notProton := (pdg: int) => pdg != PROTON;
    var nElse: nat := 0;
    for i := 0 to |kidPdgs|
      invariant nElse == Count(kidPdgs[..i], notProton)
    {
      assert kidPdgs[..i + 1][..i] == kidPdgs[..i];
      if kidPdgs[i] != PROTON {
        nElse := nElse + 1;
      }
    }
    assert kidPdgs[..|kidPdgs|] == kidPdgs;
    ghost var nKids := nElse;
    for i := 0 to |broPdgs|
      invariant nElse == nKids + Count(broPdgs[..i], notProton)
    {
      assert broPdgs[..i + 1][..i] == broPdgs[..i];
      if broPdgs[i] != PROTON {
        nElse := nElse + 1;
      }
    }
    assert broPdgs[..|broPdgs|] == broPdgs;
    CountZero(kidPdgs, notProton);
    CountZero(broPdgs, notProton);
    simple := if nElse != 0 then false else true;
  }

  /** The perpendicular distance from coordinate `c` to the nearer of the
      two walls at `lo` and `hi`. */
  function NearestWallDistance(lo: real, hi: real, c: real): (d: real)
    ensures d <= c - lo && d <= hi - c
    ensures d == c - lo || d == hi - c
  {
    if hi - c > c - lo then c - lo else hi - c
  }

  /** The closest-wall selection as the source writes it: the y and z
      branches compare against x instead of against each other, so when x
      is the strictly largest distance no branch fires and `prev`, the
      value the variable held before, stays. Otherwise it stores the
      smallest distance. */
  function ClosestWallAsWritten(prev: real, dx: real, dy: real, dz: real): (r: real)
    ensures dx > dy && dx > dz ==> r == prev
    ensures !(dx > dy && dx > dz) ==> r == ClosestWall(dx, dy, dz)
  {
    var afterX := if dx <= dy && dx <= dz then dx else prev;
    var afterY := if dy <= dx && dx <= dz then dy else afterX;
    if dz <= dx && dx <= dy then dz else afterY
  }

  /** A concrete shower start in a detector 256 x 232 x 1036 cm: at
      (128, 100, 10) the distances are 128, 16 and 10 and the nearest wall
      is 10 cm away, yet the as-written selection keeps whatever the
      variable held before (the previous event's distance). */
  lemma ClosestWallAsWrittenCounterexample(prev: real)
    ensures NearestWallDistance(0.0, 256.0, 128.0) == 128.0
    ensures NearestWallDistance(-116.0, 116.0, 100.0) == 16.0
    ensures NearestWallDistance(0.0, 1036.0, 10.0) == 10.0
    ensures ClosestWall(128.0, 16.0, 10.0) == 10.0
    ensures ClosestWallAsWritten(prev, 128.0, 16.0, 10.0) == prev
  {
  }

  /** The intended selection: the smallest of the three distances. */
  function ClosestWall(dx: real, dy: real, dz: real): (d: real)
    ensures d <= dx && d <= dy && d <= dz
    ensures d == dx || d == dy || d == dz
  {
    if dx <= dy && dx <= dz then dx
    else if dy <= dx && dy <= dz then dy
    else dz
  }

  /** The distance from a point to the nearest TPC wall, for a detector of
      the given half width, half height and length. */
  function Dist2Wall(halfWidth: real, halfHeight: real, length: real, pt: Vec3): real
  {
    ClosestWall(NearestWallDistance(0.0, 2.0 * halfWidth, pt.x),
                NearestWallDistance(-halfHeight, halfHeight, pt.y),
                NearestWallDistance(0.0, length, pt.z))
  }

  /** The stored distance from a point to the nearest TPC wall as the
      source computes it, `prev` being the variable's value before. */
  function Dist2WallAsWritten(prev: real, halfWidth: real, halfHeight: real, length: real, pt: Vec3): real
  {
    ClosestWallAsWritten(prev, NearestWallDistance(0.0, 2.0 * halfWidth, pt.x),
                         NearestWallDistance(-halfHeight, halfHeight, pt.y),
                         NearestWallDistance(0.0, length, pt.z))
  }

  /** A point is in the TPC active volume exactly when its nearest-wall
      distance is not negative: the box of the dirt filter and of the
      analysis module and the B.I.T.E. distance describe the same volume. */
  lemma InsideTPCIffNonNegativeDist2Wall(halfWidth: real, halfHeight: real, length: real, pt: Vec3)
    ensures Contains(TPCBox(halfWidth, halfHeight, length), pt) <==> 0.0 <= Dist2Wall(halfWidth, halfHeight, length, pt)
  {
  }

  /** A point inside the TPC is no farther from its nearest wall than from
      any wall, and that distance is never negative. */
  lemma Dist2WallIsNearest(halfWidth: real, halfHeight: real, length: real, pt: Vec3)
    requires 0.0 <= pt.x <= 2.0 * halfWidth && -halfHeight <= pt.y <= halfHeight && 0.0 <= pt.z <= length
    ensures 0.0 <= Dist2Wall(halfWidth, halfHeight, length, pt)
    ensures Dist2Wall(halfWidth, halfHeight, length, pt) <= pt.x
    ensures Dist2Wall(halfWidth, halfHeight, length, pt) <= 2.0 * halfWidth - pt.x
    ensures Dist2Wall(halfWidth, halfHeight, length, pt) <= pt.y + halfHeight
    ensures Dist2Wall(halfWidth, halfHeight, length, pt) <= halfHeight - pt.y
    ensures Dist2Wall(halfWidth, halfHeight, length, pt) <= pt.z
    ensures Dist2Wall(halfWidth, halfHeight, length, pt) <= length - pt.z
  {
  }

  /** The branch variables of the analysis tree: one row per event. */
  datatype TreeRow = TreeRow(
    eNuReco: real, eNuRecoBetter: real, eDep: real, weight: real, ptype: int,
    parentPDG: int, mcPDG: int, mcGeneration: int, longestTrackLen: real,
    xVtx: real, yVtx: real, zVtx: real,
    closestPerpendicularDist2WallShr: real, closestPerpendicularDist2WallVtx: real,
    eTheta: real, ePhi: real, eEdep: real, eCCQE: real,
    nuTheta: real, nuPt: real, nuP: real, nChildren: int, isSimple: bool, dedx: real,
    flashTime: real, summedFlashPE: real, dist2WallShr: real, dist2WallVtx: real,
    maybePi0MID: bool, nErtoolShowers: int, nNuesInEvt: int, hasMuonChild: bool)

  /** Every variable the per-event reset touches holds its sentinel or
      zero value. */
  predicate IsResetRow(t: TreeRow)
  {
    t.eNuReco == 0.0 && t.eNuRecoBetter == 0.0 && t.eDep == 0.0 && t.ptype == -1 &&
    t.parentPDG == -99999 && t.mcPDG == -99999 && t.mcGeneration == -99999 &&
    t.longestTrackLen == 0.0 && t.xVtx == -999.0 && t.yVtx == -999.0 && t.zVtx == -999.0 &&
    t.eTheta == -999.0 && t.ePhi == -999.0 && t.eEdep == -999.0 && t.eCCQE == -999.0 &&
    t.nuP == -999.0 && t.nuPt == -999.0 && t.nuTheta == -999.0 && t.nChildren == -999 &&
    !t.isSimple && t.dedx == -999.0 && t.flashTime == -999999999.0 && t.summedFlashPE == -999999999.0 &&
    t.dist2WallVtx == -999.0 && t.dist2WallShr == -999.0 && !t.maybePi0MID && t.nErtoolShowers == -1 &&
    t.nNuesInEvt == 0 && !t.hasMuonChild
  }

  class ERAnaLowEnergyExcess {
    /** The reweighter the module owns, and the detector geometry. */
    const rw: LEERW
    const detHalfWidth: real
    const detHalfHeight: real
    const detLength: real
    var leeSampleMode: bool

    /** The TPC active volume, built by `ProcessBegin`. */
    var vactive: Box

    /** The branch variables of the analysis tree for the current event. */
    var row: TreeRow

    /** A module owns its reweighter, built from the reweighter's object
        names and calibration constants; no other module shares it. */
    constructor (fluxName: string, xsecName: string, mbName: string, generatedName: string,
                 pot: real, tonnage: real, excess: real,
                 halfWidth: real, halfHeight: real, length: real)
      ensures fresh(rw) && !rw.Ready() && !leeSampleMode
      ensures rw.fluxRatioName == fluxName && rw.xsecRatioName == xsecName
      ensures rw.mbEvisUzCorrName == mbName && rw.generatedEvisUzCorrName == generatedName
      ensures rw.potWeight == pot && rw.tonnageWeight == tonnage && rw.trueMBExcessEvts == excess
      ensures detHalfWidth == halfWidth && detHalfHeight == halfHeight && detLength == length
    {
      rw := new LEERW(fluxName, xsecName, mbName, generatedName, pot, tonnage, excess);
      detHalfWidth, detHalfHeight, detLength := halfWidth, halfHeight, length;
      leeSampleMode := false;
    }

    /** The source of the LEE reweighting tables. */
    static const LEE_SOURCE_FILE: string := "$LARLITE_USERDEVDIR/LowEnergyExcess/LEEReweight/source/LEE_Reweight_plots.root"

    /** In LEE mode, configures the reweighter for the LEE sample (6637
        events, generated only in the TPC) and initializes it; in every mode
        builds the TPC active volume. A failed initialization throws, so the
        volume is then not built. */
    method ProcessBegin(store: TableStore) returns (r: Outcome<LEEError>)
      modifies rw, this`vactive
      ensures r.Pass? ==> vactive == TPCBox(detHalfWidth, detHalfHeight, detLength)
      ensures r.Fail? ==> vactive == old(vactive)
      ensures !leeSampleMode ==> r == Pass && unchanged(rw)
      ensures leeSampleMode ==> rw.sourceFilename == LEE_SOURCE_FILE && !rw.debug && rw.eventsGeneratedOnlyInTPC
      ensures leeSampleMode ==> rw.fluxRatioName == old(rw.fluxRatioName) && rw.xsecRatioName == old(rw.xsecRatioName)
      ensures leeSampleMode ==> rw.mbEvisUzCorrName == old(rw.mbEvisUzCorrName)
                                && rw.generatedEvisUzCorrName == old(rw.generatedEvisUzCorrName)
      ensures leeSampleMode ==> (r.Pass? <==> old(rw.generatedEvisUzCorrName) != [])
      ensures leeSampleMode && r.Fail? ==> r == Fail(MissingGeneratedHistName)
      ensures leeSampleMode && r.Fail? ==>
              rw.nGeneratedEvts == 6637.0 && rw.fluxRatio == old(rw.fluxRatio) && rw.xsecRatio == old(rw.xsecRatio) &&
              rw.mbEvisUzCorr == old(rw.mbEvisUzCorr) && rw.generatedEvisUzCorr == old(rw.generatedEvisUzCorr)
      ensures leeSampleMode && r.Pass? ==> rw.nGeneratedEvts == GeneratedAfterInit(6637.0, true)
      ensures leeSampleMode && r.Pass? ==>
              rw.fluxRatio == store.graph(LEE_SOURCE_FILE, rw.fluxRatioName) &&
              rw.xsecRatio == store.graph(LEE_SOURCE_FILE, rw.xsecRatioName) &&
              rw.mbEvisUzCorr == Scale(store.hist(LEE_SOURCE_FILE, rw.mbEvisUzCorrName), MB_HIST_SCALE) &&
              rw.generatedEvisUzCorr == store.hist(LEE_SOURCE_FILE, rw.generatedEvisUzCorrName)
    {
      if leeSampleMode {
        rw.debug := false;
        rw.sourceFilename := LEE_SOURCE_FILE;
        rw.nGeneratedEvts := 6637.0;
        rw.eventsGeneratedOnlyInTPC := true;
        r := rw.Initialize(store);
        if r.Fail? {
          return;
        }
      } else {
        r := Pass;
      }
      vactive := TPCBox(detHalfWidth, detHalfHeight, detLength);
    }

    /** Resets the per-event output variables. The weight and the two
        closest-wall distances are not among them and keep their values. */
    method ResetTreeVariables()
      modifies this`row
      ensures IsResetRow(row)
      ensures row.weight == old(row.weight)
      ensures row.closestPerpendicularDist2WallShr == old(row.closestPerpendicularDist2WallShr)
      ensures row.closestPerpendicularDist2WallVtx == old(row.closestPerpendicularDist2WallVtx)
    {
      row := row.(
        eNuReco := 0.0,
        eNuRecoBetter := 0.0,
        eDep := 0.0,
        parentPDG := -99999,
        ptype := -1,
        mcPDG := -99999,
        mcGeneration := -99999,
        longestTrackLen := 0.0,
        xVtx := -999.0,
        yVtx := -999.0,
        zVtx := -999.0,
        eTheta := -999.0,
        ePhi := -999.0,
        eEdep := -999.0,
        eCCQE := -999.0,
        nuP := -999.0,
        nuPt := -999.0,
        nuTheta := -999.0,
        nChildren := -999,
        isSimple := false,
        dedx := -999.0,
        flashTime := -999999999.0,
        summedFlashPE := -999999999.0,
        dist2WallVtx := -999.0,
        dist2WallShr := -999.0,
        maybePi0MID := false,
        nErtoolShowers := -1,
        nNuesInEvt := 0,
        hasMuonChild := false);
    }

    /** The event weight over the MC particle graph. For a beam sample the
        scan stops at the first beam neutrino and records its parent code;
        otherwise the last electron and electron neutrino are kept. */
    method GetWeight(mcGraph: seq<GraphParticle>, fluxWeight: (real, int, int) -> real)
      returns (w: Result<real, LEEError>)
      modifies this`row
      ensures w == ExpectedWeight(leeSampleMode, rw, mcGraph, fluxWeight)
      ensures !leeSampleMode && FirstFluxNeutrino(mcGraph).Some?
              ==> row == old(row).(ptype := ProcessTypeCode(mcGraph[FirstFluxNeutrino(mcGraph).value].process))
      ensures leeSampleMode || FirstFluxNeutrino(mcGraph).None? ==> row == old(row)
    {
      var nuEnergyGeV := 1.0;
      var eEnergyMeV := -1.0;
      var eUz := -2.0;
      for i := 0 to |mcGraph|
        invariant nuEnergyGeV == LEENeutrinoEnergy(mcGraph[..i])
        invariant eEnergyMeV == LEEElectronEnergy(mcGraph[..i])
        invariant eUz == LEEElectronUz(mcGraph[..i])
        invariant !leeSampleMode ==> forall j :: 0 <= j < i ==> !IsFluxNeutrino(mcGraph[j])
        invariant row == old(row)
      {
        var mc := mcGraph[i];
        assert mcGraph[..i + 1][..i] == mcGraph[..i] && mcGraph[..i + 1][i] == mc;
        if Abs(mc.pdg) == NU_E {
          nuEnergyGeV := mc.energy / 1000.0;
        }
        if Abs(mc.pdg) == ELECTRON {
          eEnergyMeV := mc.energy;
          eUz := mc.cosTheta;
        }
        if !leeSampleMode {
          if (Abs(mc.pdg) == NU_E || Abs(mc.pdg) == NU_MU) && mc.ancestor == mc.id {
            var ntype := NeutrinoTypeCode(mc.pdg);
            var ptypeCode := ProcessTypeCode(mc.process);
            var e := mc.energy / 1000.0;
            row := row.(ptype := ptypeCode);
            return Ok(fluxWeight(e, ntype, ptypeCode));
          }
        }
      }
      assert mcGraph[..|mcGraph|] == mcGraph;
      if leeSampleMode {
        var sculpting := rw.SculptingWeight(eEnergyMeV, eUz);
        if sculpting.Err? {
          return Err(sculpting.error);
        }
        // the sculpting call already threw for an uninitialised reweighter
        var normalized := rw.NormalizedWeight(nuEnergyGeV);
        assert normalized.Ok?;
        ghost var nuE := LEENeutrinoEnergy(mcGraph);
        ghost var s := rw.SculptingWeight(LEEElectronEnergy(mcGraph), LEEElectronUz(mcGraph)).value;
        ghost var n := Normalization(rw.potWeight, rw.tonnageWeight, rw.xsecRatio.eval(nuE), rw.fluxRatio.eval(nuE),
                                     rw.trueMBExcessEvts, rw.nGeneratedEvts);
        ghost var expected := ExpectedWeight(true, rw, mcGraph, fluxWeight);
        assert expected.Ok? && expected.value == s * n;
        assert sculpting.value * normalized.value == s * n;
        return Ok(sculpting.value * normalized.value);
      }
      return Ok(1.0);
    }

    /** The parent code `GetWeight` records for a graph: that of the first
        beam neutrino for a beam sample, otherwise the value before. */
    function PtypeAfterWeight(mcGraph: seq<GraphParticle>, before: int): int
      reads this
    {
      if !leeSampleMode && FirstFluxNeutrino(mcGraph).Some?
      then ProcessTypeCode(mcGraph[FirstFluxNeutrino(mcGraph).value].process)
      else before
    }

    /** The parts of one event's analysis that decide whether it is kept
        and with what weight: reset the outputs, count the reconstructed
        electron neutrinos, give up on an event without one, and compute
        the weight from the MC particle graph. */
    method Analyze(particles: seq<GraphParticle>, mcGraph: seq<GraphParticle>, fluxWeight: (real, int, int) -> real)
      returns (r: Result<bool, LEEError>)
      modifies this`row
      ensures row.nNuesInEvt == Count(particles, IsNueNode)
      ensures row.nNuesInEvt == 0 ==> r == Ok(false) && IsResetRow(row) && row.weight == old(row.weight)
      ensures row.nNuesInEvt == 0 ==>
              row.closestPerpendicularDist2WallShr == old(row.closestPerpendicularDist2WallShr) &&
              row.closestPerpendicularDist2WallVtx == old(row.closestPerpendicularDist2WallVtx)
      ensures row.nNuesInEvt != 0 ==> row.ptype == PtypeAfterWeight(mcGraph, -1)
      ensures row.nNuesInEvt != 0 ==>
              match ExpectedWeight(leeSampleMode, rw, mcGraph, fluxWeight)
              case Ok(x) => r == Ok(true) && row.weight == x
              case Err(e) => r == Err(e) && row.weight == old(row.weight)
    {
      ResetTreeVariables();
      var reco := false;
      for i := 0 to |particles|
        invariant row.nNuesInEvt == Count(particles[..i], IsNueNode)
        invariant reco <==> row.nNuesInEvt != 0
        invariant IsResetRow(row.(nNuesInEvt := 0)) && row.weight == old(row.weight)
        invariant row.closestPerpendicularDist2WallShr == old(row.closestPerpendicularDist2WallShr)
        invariant row.closestPerpendicularDist2WallVtx == old(row.closestPerpendicularDist2WallVtx)
      {
        assert particles[..i + 1][..i] == particles[..i];
        if Abs(particles[i].pdg) == NU_E {
          row := row.(nNuesInEvt := row.nNuesInEvt + 1);
          reco := true;
        }
      }
      assert particles[..|particles|] == particles;
      if !reco {
        return Ok(false);
      }
      var w := GetWeight(mcGraph, fluxWeight);
      if w.Err? {
        return Err(w.error);
      }
      row := row.(weight := w.value);
      return Ok(true);
    }

    /** The wall-distance part of the B.I.T.E. variables for the shower
        start and the neutrino vertex. `shrExit` and `vtxExit` are the
        distances from each point back along its direction to where it
        leaves the active volume, if it does; without one the distance is
        999. The closest perpendicular distances are selected as the source
        writes it (see `ClosestWallAsWritten`). */
    method FillBITEVariables(showerStart: Vec3, vertex: Vec3, shrExit: Option<real>, vtxExit: Option<real>)
      modifies this`row
      ensures row == old(row).(
        dist2WallShr := if shrExit.Some? then shrExit.value else 999.0,
        dist2WallVtx := if vtxExit.Some? then vtxExit.value else 999.0,
        closestPerpendicularDist2WallShr :=
          Dist2WallAsWritten(old(row.closestPerpendicularDist2WallShr), detHalfWidth, detHalfHeight, detLength, showerStart),
        closestPerpendicularDist2WallVtx :=
          Dist2WallAsWritten(old(row.closestPerpendicularDist2WallVtx), detHalfWidth, detHalfHeight, detLength, vertex))
    {
      var dist9Shr := 999.0;
      var dist9Vtx := 999.0;
      if shrExit.Some? {
        dist9Shr := shrExit.value;
      }
      if vtxExit.Some? {
        dist9Vtx := vtxExit.value;
      }
      var closestShr := row.closestPerpendicularDist2WallShr;
      var dx := NearestWallDistance(0.0, 2.0 * detHalfWidth, showerStart.x);
      var dy := NearestWallDistance(-detHalfHeight, detHalfHeight, showerStart.y);
      var dz := NearestWallDistance(0.0, detLength, showerStart.z);
      if dx <= dy && dx <= dz { closestShr := dx; }
      if dy <= dx && dx <= dz { closestShr := dy; }
      if dz <= dx && dx <= dy { closestShr := dz; }
      var closestVtx := row.closestPerpendicularDist2WallVtx;
      dx := NearestWallDistance(0.0, 2.0 * detHalfWidth, vertex.x);
      dy := NearestWallDistance(-detHalfHeight, detHalfHeight, vertex.y);
      dz := NearestWallDistance(0.0, detLength, vertex.z);
      if dx <= dy && dx <= dz { closestVtx := dx; }
      if dy <= dx && dx <= dz { closestVtx := dy; }
      if dz <= dx && dx <= dy { closestVtx := dz; }
      row := row.(dist2WallShr := dist9Shr, dist2WallVtx := dist9Vtx,
                  closestPerpendicularDist2WallShr := closestShr,
                  closestPerpendicularDist2WallVtx := closestVtx);
    }
  }
}
