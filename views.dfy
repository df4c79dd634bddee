/** A fact relating the exact-match projection and the false-positive
    reshaping when they are applied to the same list of groups.  The app
    itself never does this: each component calls its own Apex method, so
    this is a statement about the shaping functions, not about what the
    components display side by side. */
module Views {
  import opened MatchGroups
  import opened ExactMatches
  import opened FalsePositives

  /** Rebuilds match groups from an exact-match list and a false-positive
      list of the same length, pairing them by position. */
  ghost function Reassemble<S, C>(staging: seq<S>, groups: seq<FalsePositiveGroup<C>>): seq<MatchGroup<S, C>>
    requires |staging| == |groups|
  {
    seq(|staging|, i requires 0 <= i < |staging| => MatchGroup(staging[i], groups[i].contacts))
  }

  /** The exact-match projection drops the contacts and the false-positive
      reshaping drops the staging records, but on the same list the two
      results together give that list back: row i of each result comes from
      group i. */
  lemma ReassembleViews<S, C>(data: seq<MatchGroup<S, C>>)
    ensures Reassemble(StagingRecords(data), ShapeFalsePositiveGroups(data)) == data
  {
  }
}
