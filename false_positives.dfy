/** The false-positives component: each match group becomes a keyed row that
    carries the group's contact records and drops its staging record. */
module FalsePositives {
  import opened Wire
  import opened MatchGroups

  /** A row has exactly two fields, `key` and `contacts`. */
  datatype FalsePositiveGroup<C> = FalsePositiveGroup(key: string, contacts: seq<C>)

  /** The `data.map((group, index) => ({ key, contacts }))` reshaping. */
  function ShapeFalsePositiveGroups<S, C>(data: seq<MatchGroup<S, C>>): (groups: seq<FalsePositiveGroup<C>>)
    ensures |groups| == |data|
    ensures forall i :: 0 <= i < |data| ==> ParseGroupKey(groups[i].key) == Some(i)
    ensures forall i :: 0 <= i < |data| ==> groups[i].contacts == data[i].contactRecords
  {
    var groups := seq(|data|, i requires 0 <= i < |data| =>
      FalsePositiveGroup(GroupKey(i), data[i].contactRecords));
    assert forall i :: 0 <= i < |data| ==> ParseGroupKey(groups[i].key) == Some(i) by {
      forall i | 0 <= i < |data| ensures ParseGroupKey(groups[i].key) == Some(i) {
        ParseGroupKeyOfGroupKey(i);
      }
    }
    groups
  }

  /** The keys of the rows are `Group_0`, `Group_1`, … in order. */
  ghost predicate KeyedByPosition<C>(groups: seq<FalsePositiveGroup<C>>) {
    forall i :: 0 <= i < |groups| ==> groups[i].key == GroupKey(i)
  }

  /** The keys of the reshaping are `Group_0`, `Group_1`, … */
  lemma ShapeKeyedByPosition<S, C>(data: seq<MatchGroup<S, C>>)
    ensures KeyedByPosition(ShapeFalsePositiveGroups(data))
  {
  }

  /** No two rows of a list keyed by position share a key. */
  lemma FalsePositiveKeysDistinct<C>(groups: seq<FalsePositiveGroup<C>>)
    requires KeyedByPosition(groups)
    ensures forall i, j :: 0 <= i < |groups| && 0 <= j < |groups| && i != j ==> groups[i].key != groups[j].key
  {
    forall i, j | 0 <= i < |groups| && 0 <= j < |groups| && i != j
      ensures groups[i].key != groups[j].key
    {
      GroupKeysDistinct(i, j);
    }
  }

  /** The component `FalsePositivesLWC` and its tracked field. */
  class FalsePositivesLWC<C> {
    var falsePositiveGroups: seq<FalsePositiveGroup<C>>

    ghost predicate Valid()
      reads this
    {
      KeyedByPosition(falsePositiveGroups)
    }

    constructor ()
      ensures Valid() && falsePositiveGroups == []
    {
      falsePositiveGroups := [];
    }

    /** `wiredPotentialFalsePositives({ error, data })`. */
    method WiredPotentialFalsePositives<S, E>(data: Option<seq<MatchGroup<S, C>>>, error: Option<E>)
      returns (outcome: HandlerOutcome)
      requires Valid()
      modifies this
      ensures Valid()
      ensures outcome == Dispatch(data.Some?, error.Some?)
      ensures data.Some? ==> falsePositiveGroups == ShapeFalsePositiveGroups(data.value)
      ensures data.None? ==> falsePositiveGroups == old(falsePositiveGroups)
    {
      if data.Some? {
        falsePositiveGroups := ShapeFalsePositiveGroups(data.value);
        ShapeKeyedByPosition(data.value);
        outcome := Assigned;
      } else if error.Some? {
        outcome := ErrorLogged;
      } else {
        outcome := Ignored;
      }
    }
  }
}
