/** The 1e1p topology filter (`MC_LEE_1e1p_Filter`): keeps an event whose
    first truth record has exactly one electron in the accepted energy range
    and exactly one proton at or above 60 MeV kinetic energy, and no photon, pion,
    muon or charged kaon. Kinetic energies are in GeV. */
module Filter1e1p {
  import opened Common
  import opened Truth

  /** Kinetic energy at the first trajectory point. */
  function KineticEnergy(p: McPart): real
  {
    p.startEnergy - p.mass
  }

  /** A particle the rule looks at: final state and at least 20 MeV. */
  predicate Considered(p: McPart)
  {
    p.status == 1 && !(KineticEnergy(p) < 0.02)
  }

  predicate IsElectron(p: McPart) { Abs(p.pdg) == ELECTRON }

  /** A photon, charged pion, neutral pion, muon or charged kaon. */
  predicate IsForbidden(p: McPart)
  {
    Abs(p.pdg) in {GAMMA, PI_PLUS, PI_ZERO, MUON, K_PLUS}
  }

  /** A considered particle that rejects the event on sight: an electron
      outside 0.1 to 1.5 GeV, or a forbidden particle. */
  predicate Vetoes(p: McPart)
  {
    Considered(p) &&
    ((IsElectron(p) && (KineticEnergy(p) > 1.5 || KineticEnergy(p) < 0.1)) || IsForbidden(p))
  }

  predicate CountedElectron(p: McPart) { Considered(p) && IsElectron(p) }

  predicate ViableProton(p: McPart)
  {
    Considered(p) && Abs(p.pdg) == PROTON && KineticEnergy(p) >= 0.060
  }

  /** The selection: no particle vetoes the event, one considered electron
      and one viable proton. */
  predicate Is1e1p(ps: seq<McPart>)
  {
    (forall i :: 0 <= i < |ps| ==> !Vetoes(ps[i])) &&
    Count(ps, CountedElectron) == 1 && Count(ps, ViableProton) == 1
  }

  /** A particle the rule skips (not final state, or under 20 MeV) changes
      nothing, wherever it is inserted. */
  lemma {:induction false} SkippedParticleIrrelevant(pre: seq<McPart>, p: McPart, post: seq<McPart>)
    requires !Considered(p)
    ensures Is1e1p(pre + [p] + post) == Is1e1p(pre + post)
  {
    var s, t := pre + [p] + post, pre + post;
    CountAppend(pre + [p], post, CountedElectron);
    CountAppend(pre, [p], CountedElectron);
    CountAppend(pre, post, CountedElectron);
    CountAppend(pre + [p], post, ViableProton);
    CountAppend(pre, [p], ViableProton);
    CountAppend(pre, post, ViableProton);
    assert [p][..0] == [];
    assert forall i :: 0 <= i < |t| ==> t[i] == s[if i < |pre| then i else i + 1];
    assert forall i :: 0 <= i < |s| && i != |pre| ==> s[i] == t[if i < |pre| then i else i - 1];
  }

  /** The particle loop over the first truth record, with its early
      returns; it decides the selection rule. */
  method Select(ps: seq<McPart>) returns (keep: bool)
    ensures keep == Is1e1p(ps)
  {
    var nElectrons: nat := 0;
    var nViableProtons: nat := 0;
    for i := 0 to |ps|
      invariant forall j :: 0 <= j < i ==> !Vetoes(ps[j])
      invariant nElectrons == Count(ps[..i], CountedElectron)
      invariant nViableProtons == Count(ps[..i], ViableProton)
    {
      var p := ps[i];
      assert ps[..i + 1][..i] == ps[..i] && ps[..i + 1][i] == p;
      if p.status != 1 {
        continue;
      }
      var ke := KineticEnergy(p);
      if ke < 0.02 {
        continue;
      }
      var pdg := Abs(p.pdg);
      if pdg == ELECTRON {
        nElectrons := nElectrons + 1;
        if ke > 1.5 || ke < 0.1 {
          assert Vetoes(ps[i]);
          return false;
        }
      }
      if pdg == GAMMA || pdg == PI_PLUS || pdg == PI_ZERO || pdg == MUON || pdg == K_PLUS {
        assert Vetoes(ps[i]);
        return false;
      }
      if pdg == PROTON {
        if ke >= 0.060 {
          nViableProtons := nViableProtons + 1;
        }
      }
    }
    assert ps[..|ps|] == ps;
    if nElectrons != 1 {
      return false;
    }
    if nViableProtons != 1 {
      return false;
    }
    return true;
  }

  /** The filter reads only the first truth record; `at(0)` throws on an
      empty list. */
  datatype FilterError = EmptyTruthList

  class MC_LEE_1e1p_Filter {
    var totalEvents: nat
    var keptEvents: nat

    /** Every event kept was also counted. */
    predicate Valid()
      reads this
    {
      keptEvents <= totalEvents
    }

    constructor ()
    {
    }

    method Initialize()
      modifies this
      ensures totalEvents == 0 && keptEvents == 0 && Valid()
    {
      totalEvents := 0;
      keptEvents := 0;
    }

    /** One event. A missing truth product is rejected without being
        counted; every other event is counted exactly once, and kept iff
        its first truth record passes the 1e1p rule. */
    method Analyze(event: Option<seq<McTruth>>) returns (r: Result<bool, FilterError>)
      modifies this
      ensures event.None? ==> r == Ok(false) && totalEvents == old(totalEvents)
      ensures event.Some? ==> totalEvents == old(totalEvents) + 1
      ensures event.Some? && event.value == [] ==> r == Err(EmptyTruthList)
      ensures event.Some? && event.value != [] ==> r == Ok(Is1e1p(event.value[0].particles))
      ensures keptEvents == old(keptEvents) + (if r == Ok(true) then 1 else 0)
      ensures old(Valid()) ==> Valid()
    {
      if event.None? {
        return Ok(false);
      }
      totalEvents := totalEvents + 1;
      if event.value == [] {
        return Err(EmptyTruthList);
      }
      var keep := Select(event.value[0].particles);
      if keep {
        keptEvents := keptEvents + 1;
      }
      return Ok(keep);
    }
  }
}
