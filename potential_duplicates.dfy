/** The potential-duplicates component: each match group becomes a keyed row
    whose staging record is wrapped in a one-element list (the shape a data
    table needs) and whose contact records are passed through. */
module PotentialDuplicates {
  import opened Wire
  import opened MatchGroups

  datatype DuplicateGroup<S, C> = DuplicateGroup(key: string, stagingRecord: seq<S>, contactRecords: seq<C>)

  /** The `data.map((group, index) => …)` reshaping. */
  function ShapeDuplicateGroups<S, C>(data: seq<MatchGroup<S, C>>): (groups: seq<DuplicateGroup<S, C>>)
    ensures |groups| == |data|
    ensures forall i :: 0 <= i < |data| ==> ParseGroupKey(groups[i].key) == Some(i)
    ensures forall i :: 0 <= i < |data| ==>
      groups[i].stagingRecord == [data[i].stagingRecord] && groups[i].contactRecords == data[i].contactRecords
  {
    var groups := seq(|data|, i requires 0 <= i < |data| =>
      DuplicateGroup(GroupKey(i), [data[i].stagingRecord], data[i].contactRecords));
    assert forall i :: 0 <= i < |data| ==> ParseGroupKey(groups[i].key) == Some(i) by {
      forall i | 0 <= i < |data| ensures ParseGroupKey(groups[i].key) == Some(i) {
        ParseGroupKeyOfGroupKey(i);
      }
    }
    groups
  }

  /** The shape every value of `potentialDuplicateGroups` has: keyed by
      position, exactly one staging record per group. */
  ghost predicate IsDuplicateView<S, C>(groups: seq<DuplicateGroup<S, C>>) {
    forall i :: 0 <= i < |groups| ==> groups[i].key == GroupKey(i) && |groups[i].stagingRecord| == 1
  }

  /** Reads the service's groups back from the component's rows. */
  ghost function Ungroup<S, C>(groups: seq<DuplicateGroup<S, C>>): seq<MatchGroup<S, C>>
    requires forall i :: 0 <= i < |groups| ==> |groups[i].stagingRecord| == 1
  {
    seq(|groups|, i requires 0 <= i < |groups| => MatchGroup(groups[i].stagingRecord[0], groups[i].contactRecords))
  }

  /** The reshaping always yields that shape. */
  lemma ShapeIsDuplicateView<S, C>(data: seq<MatchGroup<S, C>>)
    ensures IsDuplicateView(ShapeDuplicateGroups(data))
  {
  }

  /** Nothing the service sent is lost: the groups can be read back. */
  lemma UngroupShape<S, C>(data: seq<MatchGroup<S, C>>)
    ensures Ungroup(ShapeDuplicateGroups(data)) == data
  {
  }

  /** Every list of that shape is the reshaping of exactly the groups read
      back from it. */
  lemma ShapeUngroup<S, C>(groups: seq<DuplicateGroup<S, C>>)
    requires IsDuplicateView(groups)
    ensures ShapeDuplicateGroups(Ungroup(groups)) == groups
  {
    var again := ShapeDuplicateGroups(Ungroup(groups));
    forall i | 0 <= i < |groups| ensures again[i] == groups[i] {
      assert ParseGroupKey(again[i].key) == Some(i);
      assert again[i].stagingRecord == [groups[i].stagingRecord[0]] == groups[i].stagingRecord;
    }
  }

  /** No two rows of such a list share a key. */
  lemma DuplicateViewKeysDistinct<S, C>(groups: seq<DuplicateGroup<S, C>>)
    requires IsDuplicateView(groups)
    ensures forall i, j :: 0 <= i < |groups| && 0 <= j < |groups| && i != j ==> groups[i].key != groups[j].key
  {
    forall i, j | 0 <= i < |groups| && 0 <= j < |groups| && i != j
      ensures groups[i].key != groups[j].key
    {
      GroupKeysDistinct(i, j);
    }
  }

  /** The component `PotentialDuplicatesLWC` and its tracked field. */
  class PotentialDuplicatesLWC<S, C> {
    var potentialDuplicateGroups: seq<DuplicateGroup<S, C>>

    ghost predicate Valid()
      reads this
    {
      IsDuplicateView(potentialDuplicateGroups)
    }

    constructor ()
      ensures Valid() && potentialDuplicateGroups == []
    {
      potentialDuplicateGroups := [];
    }

    /** `wiredPotentialDuplicates({ error, data })`. */
    method WiredPotentialDuplicates<E>(data: Option<seq<MatchGroup<S, C>>>, error: Option<E>)
      returns (outcome: HandlerOutcome)
      requires Valid()
      modifies this
      ensures Valid()
      ensures outcome == Dispatch(data.Some?, error.Some?)
      ensures data.Some? ==> potentialDuplicateGroups == ShapeDuplicateGroups(data.value)
      ensures data.None? ==> potentialDuplicateGroups == old(potentialDuplicateGroups)
    {
      if data.Some? {
        potentialDuplicateGroups := ShapeDuplicateGroups(data.value);
        ShapeIsDuplicateView(data.value);
        outcome := Assigned;
      } else if error.Some? {
        outcome := ErrorLogged;
      } else {
        outcome := Ignored;
      }
    }
  }
}
