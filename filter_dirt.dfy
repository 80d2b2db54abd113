/** The dirt filter (`MC_dirt_Filter`): keeps an event only when no
    neutrino of any of its truth records ends inside the TPC box, that is,
    when every interaction happened outside the detector. */
module FilterDirt {
  import opened Common
  import opened Truth

  /** No truth record's neutrino ends inside the box. */
  predicate NoneContained(box: Box, records: seq<McTruth>)
  {
    forall i :: 0 <= i < |records| ==> !Contains(box, records[i].nuEndPosition)
  }

  /** The loop over truth records: once one neutrino ends inside the box
      the answer stays false. */
  method ScanRecords(box: Box, records: seq<McTruth>) returns (ret: bool)
    ensures ret == NoneContained(box, records)
  {
    ret := true;
    for i := 0 to |records|
      invariant ret == NoneContained(box, records[..i])
    {
      assert records[..i + 1][..i] == records[..i] && records[..i + 1][i] == records[i];
      if Contains(box, records[i].nuEndPosition) {
        ret := false;
      }
      if ret == false {
        continue;
      }
    }
    assert records[..|records|] == records;
  }

  class MC_dirt_Filter {
    var tpc: Box
    var nTotalEvents: nat
    var nKeptEvents: nat

    predicate Valid()
      reads this
    {
      nKeptEvents <= nTotalEvents
    }

    constructor ()
    {
    }

    /** Builds the TPC box from the detector geometry and clears the
        counters. */
    method Initialize(halfWidth: real, halfHeight: real, length: real)
      modifies this
      ensures tpc == TPCBox(halfWidth, halfHeight, length)
      ensures nTotalEvents == 0 && nKeptEvents == 0 && Valid()
    {
      tpc := TPCBox(halfWidth, halfHeight, length);
      nTotalEvents := 0;
      nKeptEvents := 0;
    }

    /** One event. A missing truth product is rejected uncounted; an empty
        truth list is counted and rejected; otherwise the event is kept iff
        no neutrino ends in the TPC, and kept events are counted. */
    method Analyze(event: Option<seq<McTruth>>) returns (ret: bool)
      modifies this`nTotalEvents, this`nKeptEvents
      ensures event.None? ==> !ret && nTotalEvents == old(nTotalEvents)
      ensures event.Some? ==> nTotalEvents == old(nTotalEvents) + 1
      ensures event.Some? && event.value == [] ==> !ret
      ensures event.Some? && event.value != [] ==> ret == NoneContained(tpc, event.value)
      ensures nKeptEvents == old(nKeptEvents) + (if ret then 1 else 0)
      ensures old(Valid()) ==> Valid()
    {
      if event.None? {
        return false;
      }
      nTotalEvents := nTotalEvents + 1;
      if event.value == [] {
        return false;
      }
      ret := ScanRecords(tpc, event.value);
      if ret {
        nKeptEvents := nKeptEvents + 1;
      }
    }
  }
}
