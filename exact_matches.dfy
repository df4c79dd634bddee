/** The exact-match component: of each match group it keeps the staging
    record and nothing else. */
module ExactMatches {
  import opened Wire
  import opened MatchGroups

  /** The `data.map(match => match.stagingRecord)` projection.  The result
      has the staging-record type only, so no contact record can be in it. */
  function StagingRecords<S, C>(data: seq<MatchGroup<S, C>>): (records: seq<S>)
    ensures |records| == |data|
    ensures forall i :: 0 <= i < |data| ==> records[i] == data[i].stagingRecord
  {
    seq(|data|, i requires 0 <= i < |data| => data[i].stagingRecord)
  }

  /** The component `ExactMatchContacts` and its tracked field. */
  class ExactMatchContacts<S> {
    var matchedGroups: seq<S>

    constructor ()
      ensures matchedGroups == []
    {
      matchedGroups := [];
    }

    /** `wiredExactMatches({ error, data })`. */
    method WiredExactMatches<C, E>(data: Option<seq<MatchGroup<S, C>>>, error: Option<E>)
      returns (outcome: HandlerOutcome)
      modifies this
      ensures outcome == Dispatch(data.Some?, error.Some?)
      ensures data.Some? ==> matchedGroups == StagingRecords(data.value)
      ensures data.None? ==> matchedGroups == old(matchedGroups)
    {
      if data.Some? {
        matchedGroups := StagingRecords(data.value);
        outcome := Assigned;
      } else if error.Some? {
        outcome := ErrorLogged;
      } else {
        outcome := Ignored;
      }
    }
  }
}
