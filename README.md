# Duplicate management: the wire handlers of the review components

This project models, in Dafny, the client-side core of a Salesforce
duplicate-management app. Four Lightning Web Components each receive data
from an Apex service through a wire adapter. Each one reshapes that data into
the single tracked list its template renders:

- **potentialDuplicates** turns every match group (one staging record plus
  its candidate contact records) into `{ key: "Group_<index>", stagingRecord:
  [staging], contactRecords }`;
- **exactMatchContacts** keeps only the staging record of each group;
- **falsePositivesLWC** turns every group into `{ key: "Group_<index>",
  contacts }`;
- **statusCard** turns a status → count object into `{ label, count }` rows,
  and shows a `null` or zero count as 0.

Every component is a `class` with its one tracked field. The field starts
empty (constructor). It has a `Wired…` method that takes the adapter's `data`
and `error` as `Option`s. JavaScript arrays and objects are truthy even when
empty, so `if (data)` only tests whether a value arrived. When data arrives
the method assigns the field the result of a pure function. Otherwise the
field is unchanged, and the method reports whether an error line would have
been logged. Records are opaque type parameters (`S` for a staging record,
`C` for a contact record), so the proofs show the records are passed through
untouched.

The group keys are `"Group_"` followed by the decimal index. `Decimal`
defines that rendering and its inverse, and proves both round trips.
`MatchGroups.ParseGroupKey` recovers the index from a key. From this it
follows that the keys in one result are pairwise distinct. The duplicates view has an
inverse, `Ungroup`: the view can be read back into the groups it came from,
and every well-keyed list comes from exactly one input. The status card has a
lookup, `CountFor`: the status rows, read as a table, give back the object
with `null` replaced by 0. The exact-match and false-positive views each drop
a field, so their contracts state element by element what each row keeps.

Modules: `Wire` (Option, the `if (data) … else if (error)` cascade),
`Decimal`, `MatchGroups` (payload and keys), `PotentialDuplicates`,
`ExactMatches`, `FalsePositives`, `StatusCards`, and `Views`. `Views`
relates the exact-match projection and the false-positive reshaping when
they are applied to the same list of groups. The app never does that,
because each component calls a different Apex method, so `Views` states a
fact about the shaping functions only, not about the running app.

## Model

| member | source | states |
|---|---|---|
| `Wire.Dispatch` | force-app/main/default/lwc/potentialDuplicates/potentialDuplicates.js:26-34 | a handler assigns exactly when data arrived; it logs an error exactly when no data but an error arrived; otherwise it does nothing |
| `Decimal.ToDecimal` | force-app/main/default/lwc/potentialDuplicates/potentialDuplicates.js:28 | the printed index is a canonical numeral (digits only, no leading zero), one digit exactly for indices below 10 |
| `Decimal.FromToDecimal` | force-app/main/default/lwc/potentialDuplicates/potentialDuplicates.js:28 | reading a printed index back gives the index |
| `Decimal.ToFromDecimal` | force-app/main/default/lwc/potentialDuplicates/potentialDuplicates.js:28 | every canonical numeral is the printing of its own value (the other round trip) |
| `Decimal.ToDecimalInjective` | force-app/main/default/lwc/potentialDuplicates/potentialDuplicates.js:28 | distinct indices print as distinct numerals |
| `MatchGroups.GroupKey` | force-app/main/default/lwc/potentialDuplicates/potentialDuplicates.js:28 | a key is the prefix `Group_` followed by a canonical decimal numeral |
| `MatchGroups.ParseGroupKey` | force-app/main/default/lwc/falsePositivesLWC/falsePositivesLWC.js:21 | an index recovered from a key is the index that key was made from |
| `MatchGroups.ParseGroupKeyOfGroupKey` | force-app/main/default/lwc/falsePositivesLWC/falsePositivesLWC.js:21 | every key parses back to its own index |
| `MatchGroups.GroupKeysDistinct` | force-app/main/default/lwc/potentialDuplicates/potentialDuplicates.js:28 | groups at different positions get different keys |
| `PotentialDuplicates.ShapeDuplicateGroups` | force-app/main/default/lwc/potentialDuplicates/potentialDuplicates.js:27-31 | one row per input group, in input order; row i's key parses to i; its staging list is the one-element list of group i's staging record; its contacts are group i's, unchanged (empty lists included) |
| `PotentialDuplicates.ShapeIsDuplicateView` | force-app/main/default/lwc/potentialDuplicates/potentialDuplicates.js:27-31 | the reshaped list is keyed by position and has exactly one staging record per row |
| `PotentialDuplicates.UngroupShape` | force-app/main/default/lwc/potentialDuplicates/potentialDuplicates.js:29-30 | the input groups can be read back from the reshaped list, so nothing is lost or reordered |
| `PotentialDuplicates.ShapeUngroup` | force-app/main/default/lwc/potentialDuplicates/potentialDuplicates.js:27-31 | every list of that shape is the reshaping of the groups read back from it |
| `PotentialDuplicates.DuplicateViewKeysDistinct` | force-app/main/default/lwc/potentialDuplicates/potentialDuplicates.js:28 | no two rows of such a list share a key |
| `PotentialDuplicates.PotentialDuplicatesLWC.constructor` | force-app/main/default/lwc/potentialDuplicates/potentialDuplicates.js:5 | `potentialDuplicateGroups` starts as the empty list |
| `PotentialDuplicates.PotentialDuplicatesLWC.WiredPotentialDuplicates` | force-app/main/default/lwc/potentialDuplicates/potentialDuplicates.js:25-35 | on data the field becomes the reshaped groups; on an error or no data it keeps its previous value; the shape invariant is kept |
| `ExactMatches.StagingRecords` | force-app/main/default/lwc/exactMatchContacts/exactMatchContacts.js:20 | one element per input group, and element i is group i's staging record; the result type holds staging records only |
| `ExactMatches.ExactMatchContacts.constructor` | force-app/main/default/lwc/exactMatchContacts/exactMatchContacts.js:6 | `matchedGroups` starts as the empty list |
| `ExactMatches.ExactMatchContacts.WiredExactMatches` | force-app/main/default/lwc/exactMatchContacts/exactMatchContacts.js:18-24 | on data the field becomes the staging records; on an error or no data it keeps its previous value |
| `FalsePositives.ShapeFalsePositiveGroups` | force-app/main/default/lwc/falsePositivesLWC/falsePositivesLWC.js:20-23 | one row per input group, in input order; row i's key parses to i; its contacts are group i's contact records unchanged; a row has only a key and contacts |
| `FalsePositives.ShapeKeyedByPosition` | force-app/main/default/lwc/falsePositivesLWC/falsePositivesLWC.js:20-21 | the reshaped rows are keyed `Group_0`, `Group_1`, … in order, the invariant every value of `falsePositiveGroups` keeps |
| `FalsePositives.FalsePositiveKeysDistinct` | force-app/main/default/lwc/falsePositivesLWC/falsePositivesLWC.js:21 | in a list keyed `Group_0`, `Group_1`, … in order (every value of `falsePositiveGroups`), no two rows share a key |
| `FalsePositives.FalsePositivesLWC.constructor` | force-app/main/default/lwc/falsePositivesLWC/falsePositivesLWC.js:5 | `falsePositiveGroups` starts as the empty list |
| `FalsePositives.FalsePositivesLWC.WiredPotentialFalsePositives` | force-app/main/default/lwc/falsePositivesLWC/falsePositivesLWC.js:18-27 | on data the field becomes the reshaped groups; on an error or no data it keeps its previous value; keys stay positional |
| `StatusCards.OrZero` | force-app/main/default/lwc/statusCard/statusCard.js:14 | `v \|\| 0` keeps every number, including 0, and turns `null` into 0, so a count is never missing |
| `StatusCards.StatusRows` | force-app/main/default/lwc/statusCard/statusCard.js:12-15 | one row per key, in key enumeration order; row i's label is key i, and its count is that key's value defaulted to 0 |
| `StatusCards.CountFor` | force-app/main/default/lwc/statusCard/statusCard.js:13 | a count is found for a label exactly when some row carries that label |
| `StatusCards.CountForRow` | force-app/main/default/lwc/statusCard/statusCard.js:13 | in rows with distinct labels, looking up a row's label finds that row's count |
| `StatusCards.StatusLabelsDistinct` | force-app/main/default/lwc/statusCard/statusCard.js:13 | the card's labels are pairwise distinct |
| `StatusCards.StatusRowsAsTable` | force-app/main/default/lwc/statusCard/statusCard.js:12-15 | read as a table, the card gives every status of the object its count with `null` as 0, and gives no other status |
| `StatusCards.StatusCard.constructor` | force-app/main/default/lwc/statusCard/statusCard.js:5 | `statusData` starts as the empty list |
| `StatusCards.StatusCard.WiredStatusCounts` | force-app/main/default/lwc/statusCard/statusCard.js:9-20 | on data the field becomes the status rows; on an error or no data it keeps its previous value; labels stay distinct |
| `Views.ReassembleViews` | force-app/main/default/lwc/exactMatchContacts/exactMatchContacts.js:20 | applied to the same list of groups, pairing the exact-match projection with the false-positive reshaping by position gives back that list, so the two shaping functions between them drop nothing |

## Left out

- The Apex services (`findPotentialDuplicates`, `getExactMatchesBetweenStagingAndContact`, `getPotentialFalsePositives`, `getStatusCounts`, `getStagingRecords`) are remote code and are not part of this model. Their results are the `data` parameters.
- `@wire`/`@track` reactivity and rendering: each handler call is a plain method call.
- The `console.error` line in each error branch is I/O. The model only reports that it happens (`ErrorLogged`) and that no state changes.
- The column definitions (`stagingColumns`, `contactColumns`, `columns`) are static display configuration with no behaviour.
- stagingRecordViewer assigns `data` to its field unchanged. Its `__tests__` file is a copy of the component with editable columns and an empty `handleSave`. Neither has behaviour beyond identity.
- Selection tracking, status filtering, promote/delete/reject actions, refresh, `FullName`/link derivation and birth-date formatting do not occur in the component code, so they are not modelled.
- `contactRecords` is modelled as a list. A `null` or missing `contactRecords` would also be passed through unchanged by the JavaScript handler, but the model does not represent that case.
- `StatusCards.StatusRows`: counts are integers or `null`. Other JavaScript values (`undefined`, `NaN`, strings) cannot come from the Apex integer map and are not represented.
- The order of `Object.keys` is taken as given by `CountObject.keys`. JavaScript enumerates integer-like keys first, in ascending order, but status labels are words.
- A `null` element in `data` makes `group.stagingRecord` or `group.contactRecords` throw a TypeError inside the handler, and a `data` that is not an array makes `data.map` throw. The field then keeps its old value and nothing is logged. `MatchGroup` values cannot be null and `data` is always a list, so the model does not represent this path.
- The row field `label` is called `statusLabel`, because `label` is a reserved word in Dafny.
