/** The status-count card: a status → count object becomes a list of
    `{ label, count }` rows, one per key, with a missing count shown as 0. */
module StatusCards {
  import opened Wire

  /** A count as the service delivers it: a number, or `null`. */
  type Count = Option<int>

  /** A JavaScript object from status label to count: `keys` is the order in
      which `Object.keys` enumerates it, `values` what `data[key]` reads. */
  datatype CountObject = CountObject(keys: seq<string>, values: map<string, Count>)

  /** What every JavaScript object satisfies: each key is enumerated exactly
      once, and exactly the keys present are enumerated. */
  ghost predicate WellFormed(o: CountObject) {
    (forall i, j :: 0 <= i < |o.keys| && 0 <= j < |o.keys| && i != j ==> o.keys[i] != o.keys[j]) &&
    (forall k :: k in o.values <==> k in o.keys)
  }

  datatype StatusRow = StatusRow(statusLabel: string, count: int)

  /** JavaScript truthiness of a count: `null` and 0 are falsy. */
  predicate Truthy(v: Count) {
    v.Some? && v.value != 0
  }

  /** `v || 0`: the only value it changes is `null`, which becomes 0. */
  function OrZero(v: Count): (count: int)
    ensures v.Some? ==> count == v.value
    ensures v.None? ==> count == 0
  {
    if Truthy(v) then v.value else 0
  }

  /** The `Object.keys(data).map(key => ({ label, count }))` transformation. */
  function StatusRows(o: CountObject): (rows: seq<StatusRow>)
    requires WellFormed(o)
    ensures |rows| == |o.keys|
    ensures forall i :: 0 <= i < |rows| ==> rows[i].statusLabel == o.keys[i] && o.keys[i] in o.values
    ensures forall i :: 0 <= i < |rows| ==> rows[i].count == OrZero(o.values[o.keys[i]])
  {
    seq(|o.keys|, i requires 0 <= i < |o.keys| => StatusRow(o.keys[i], OrZero(o.values[o.keys[i]])))
  }

  /** The labels of a list of rows never repeat. */
  ghost predicate LabelsDistinct(rows: seq<StatusRow>) {
    forall i, j :: 0 <= i < |rows| && 0 <= j < |rows| && i != j ==> rows[i].statusLabel != rows[j].statusLabel
  }

  /** The count shown for `status`: that of the first row carrying it. */
  function CountFor(rows: seq<StatusRow>, status: string): (count: Option<int>)
    ensures count.Some? <==> exists i :: 0 <= i < |rows| && rows[i].statusLabel == status
  {
    if rows == [] then None
    else if rows[0].statusLabel == status then Some(rows[0].count)
    else
      var rest := CountFor(rows[1..], status);
      assert forall i :: 1 <= i < |rows| ==> rows[i] == rows[1..][i - 1];
      rest
  }

  /** In a list with distinct labels, the count found for a row's label is
      that row's count. */
  lemma {:induction false} CountForRow(rows: seq<StatusRow>, i: nat)
    requires LabelsDistinct(rows) && i < |rows|
    ensures CountFor(rows, rows[i].statusLabel) == Some(rows[i].count)
  {
    if i > 0 {
      assert rows[0].statusLabel != rows[i].statusLabel;
      var rest := rows[1..];
      assert rest[i - 1] == rows[i];
      assert LabelsDistinct(rest) by {
        forall a, b | 0 <= a < |rest| && 0 <= b < |rest| && a != b ensures rest[a].statusLabel != rest[b].statusLabel {
          assert rest[a] == rows[a + 1] && rest[b] == rows[b + 1];
        }
      }
      CountForRow(rest, i - 1);
    }
  }

  /** The card lists each status exactly once. */
  lemma StatusLabelsDistinct(o: CountObject)
    requires WellFormed(o)
    ensures LabelsDistinct(StatusRows(o))
  {
  }

  /** Read as a table, the card shows for every status of the object its
      count with `null` replaced by 0, and shows no other status. */
  lemma StatusRowsAsTable(o: CountObject, status: string)
    requires WellFormed(o)
    ensures status in o.values ==> CountFor(StatusRows(o), status) == Some(OrZero(o.values[status]))
    ensures status !in o.values ==> CountFor(StatusRows(o), status) == None
  {
    var rows := StatusRows(o);
    StatusLabelsDistinct(o);
    if status in o.values {
      var i :| 0 <= i < |o.keys| && o.keys[i] == status;
      CountForRow(rows, i);
    }
  }

  /** The component `StatusCard` and its tracked field. */
  class StatusCard {
    var statusData: seq<StatusRow>

    ghost predicate Valid()
      reads this
    {
      LabelsDistinct(statusData)
    }

    constructor ()
      ensures Valid() && statusData == []
    {
      statusData := [];
    }

    /** `wiredStatusCounts({ error, data })`. */
    method WiredStatusCounts<E>(data: Option<CountObject>, error: Option<E>)
      returns (outcome: HandlerOutcome)
      requires Valid()
      requires data.Some? ==> WellFormed(data.value)
      modifies this
      ensures Valid()
      ensures outcome == Dispatch(data.Some?, error.Some?)
      ensures data.Some? ==> statusData == StatusRows(data.value)
      ensures data.None? ==> statusData == old(statusData)
    {
      if data.Some? {
        statusData := StatusRows(data.value);
        StatusLabelsDistinct(data.value);
        outcome := Assigned;
      } else if error.Some? {
        outcome := ErrorLogged;
      } else {
        outcome := Ignored;
      }
    }
  }
}
