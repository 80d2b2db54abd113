/** The cosmic filter (`MC_cosmic_Filter`): keeps an event by the origin of
    its truth records. The loop overwrites its answer on every record, so it
    is the last record alone that decides. */
module FilterCosmic {
  import opened Common
  import opened Truth

  /** A record that passes: a cosmic ray, or an unknown origin (CORSIKA
      cosmics carry origin 0), which passes with a warning. */
  predicate PassesOrigin(o: Origin)
  {
    o == CosmicRay || o == Unknown
  }

  /** The loop over truth records. */
  method ScanRecords(records: seq<McTruth>) returns (ret: bool)
    ensures ret <==> records != [] && PassesOrigin(records[|records| - 1].origin)
  {
    ret := false;
    for i := 0 to |records|
      invariant ret <==> i > 0 && PassesOrigin(records[i - 1].origin)
    {
      if records[i].origin == CosmicRay {
        ret := true;
      } else if records[i].origin == Unknown {
        ret := true;
      } else {
        ret := false;
      }
      if ret == true {
        continue;
      }
    }
  }

  class MC_cosmic_Filter {
    var nTotalEvents: nat
    var nKeptEvents: nat

    predicate Valid()
      reads this
    {
      nKeptEvents <= nTotalEvents
    }

    constructor ()
    {
    }

    method Initialize()
      modifies this
      ensures nTotalEvents == 0 && nKeptEvents == 0 && Valid()
    {
      nTotalEvents := 0;
      nKeptEvents := 0;
    }

    /** One event. A missing truth product is rejected uncounted; otherwise
        the event is counted, an empty list is rejected, and the last
        record's origin decides. */
    method Analyze(event: Option<seq<McTruth>>) returns (ret: bool)
      modifies this
      ensures event.None? ==> !ret && nTotalEvents == old(nTotalEvents)
      ensures event.Some? ==> nTotalEvents == old(nTotalEvents) + 1
      ensures event.Some? ==> (ret <==> event.value != [] && PassesOrigin(event.value[|event.value| - 1].origin))
      ensures nKeptEvents == old(nKeptEvents) + (if ret then 1 else 0)
      ensures old(Valid()) ==> Valid()
    {
      if event.None? {
        return false;
      }
      nTotalEvents := nTotalEvents + 1;
      ret := ScanRecords(event.value);
      if ret {
        nKeptEvents := nKeptEvents + 1;
      }
    }
  }
}
