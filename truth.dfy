/** The generator-level Monte-Carlo truth that the reweighter and the event
    filters read (larlite `mctruth` and `mcpart`), reduced to the fields those
    components look at. Particle identifiers are PDG codes as in the Monte
    Carlo Particle Numbering Scheme of the Review of Particle Physics. */
module Truth {
  import opened Common

  datatype Vec3 = Vec3(x: real, y: real, z: real)

  /** One generator particle: its signed PDG code, its status code (1 is a
      final-state particle), its mass (GeV) and, from the first point of its
      trajectory, its total energy (GeV) and the cosine of the polar angle of
      its momentum. */
  datatype McPart = McPart(pdg: int, status: int, mass: real, startEnergy: real, startCosTheta: real)

  /** The generator that produced a truth record (`simb::Origin_t`). */
  datatype Origin = Unknown | BeamNeutrino | CosmicRay | SuperNovaNeutrino | SingleParticle

  /** One interaction's truth: its particles, its origin, and the position of
      the last trajectory point of its incoming neutrino. */
  datatype McTruth = McTruth(particles: seq<McPart>, origin: Origin, nuEndPosition: Vec3)

  /** An axis-aligned box given by its two corners. */
  datatype Box = Box(lo: Vec3, hi: Vec3)

  /** A point lies in the box when every coordinate lies between the box's
      bounds, the bounds themselves included. */
  predicate Contains(b: Box, pt: Vec3)
  {
    b.lo.x <= pt.x <= b.hi.x && b.lo.y <= pt.y <= b.hi.y && b.lo.z <= pt.z <= b.hi.z
  }

  /** The TPC active volume for the detector's half width, half height and
      length: x from 0 to twice the half width, y symmetric about 0, z from
      0 to the length. The dirt filter and the analysis module build the
      same box. */
  function TPCBox(halfWidth: real, halfHeight: real, length: real): Box
  {
    Box(Vec3(0.0, -halfHeight, 0.0), Vec3(2.0 * halfWidth, halfHeight, length))
  }

  const ELECTRON := 11
  const NU_E := 12
  const MUON := 13
  const NU_MU := 14
  const GAMMA := 22
  const PI_ZERO := 111
  const PI_PLUS := 211
  const K_PLUS := 321
  const PROTON := 2212
}
