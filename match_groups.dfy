/** The payload the three grouping components receive from their Apex
    services, and the group keys they synthesise from fetch-order indices. */
module MatchGroups {
  import opened Wire
  import opened Decimal

  /** One staging record with its candidate contact records, in the order the
      service returned them.  The records themselves are opaque: `S` stands
      for a staging record, `C` for a contact record. */
  datatype MatchGroup<S, C> = MatchGroup(stagingRecord: S, contactRecords: seq<C>)

  const GroupPrefix: string := "Group_"

  /** The key `Group_${index}` given to the group at position `index`. */
  function GroupKey(index: nat): (key: string)
    ensures |key| > |GroupPrefix| && key[..|GroupPrefix|] == GroupPrefix
    ensures IsCanonical(key[|GroupPrefix|..])
  {
    assert (GroupPrefix + ToDecimal(index))[|GroupPrefix|..] == ToDecimal(index);
    GroupPrefix + ToDecimal(index)
  }

  /** The index a group key was made from, or None for a string that no
      index produces. */
  function ParseGroupKey(key: string): (index: Option<nat>)
    ensures index.Some? ==> GroupKey(index.value) == key
  {
    if |key| > |GroupPrefix| && key[..|GroupPrefix|] == GroupPrefix && IsCanonical(key[|GroupPrefix|..]) then
      var digits := key[|GroupPrefix|..];
      ToFromDecimal(digits);
      assert key == GroupPrefix + digits;
      Some(FromDecimal(digits))
    else
      None
  }

  /** Every key parses back to the index it was made from. */
  lemma ParseGroupKeyOfGroupKey(index: nat)
    ensures ParseGroupKey(GroupKey(index)) == Some(index)
  {
    var key := GroupKey(index);
    assert key[|GroupPrefix|..] == ToDecimal(index);
    FromToDecimal(index);
  }

  /** Groups at different positions get different keys. */
  lemma GroupKeysDistinct(i: nat, j: nat)
    requires i != j
    ensures GroupKey(i) != GroupKey(j)
  {
    ParseGroupKeyOfGroupKey(i);
    ParseGroupKeyOfGroupKey(j);
  }
}
