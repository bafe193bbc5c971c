# ReportPortal dashboards as code: the reconciliation core in Dafny

This project models the core of `reportportal-dashboards-as-code`, a Go tool. The tool keeps ReportPortal
dashboards, widgets and filters as YAML files and applies them to a ReportPortal project. The modelled
parts are:

- **`Equal`** (`pkg/util/equal.go`): the order-insensitive slice comparators. `CompareSlices` and
  `CompareStringSlices` take `array?` parameters, where `null` stands for a nil Go slice. They copy both
  inputs into fresh arrays, sort the copies in place with `SortSlice` and walk them position by position.
  Each comparator is proved against a specification predicate: `SlicesEqual` (sorted by key, then
  matched pairwise) or `SameElements` (nil only equals nil, otherwise multiset equality). The predicates'
  order-insensitivity, symmetry and reflexivity are proved as lemmas. A Go slice stored inside a record
  is a `Slice<T>` (`Nil` or `Items(elems)`), so nil and empty stay distinct.
- **`Kind`** (`pkg/rpdac/kind.go`): the `ObjectKind` enumeration and its `kinds` table. `String` is the
  table lookup, `Marshal*` writes the tag, and `UnmarshalTag` with the loop `AssignMatchingKind` reads a
  tag back. `KindFromTag` is the reference the loop is proved against, and the round trips are proved
  about it.
- **`Fields`** (`pkg/rpdac/dashboard.go`): the content-field codec. `DecodeFieldsSubTypes` fills a
  result array field by field. It rewrites the fourth `$`-segment of `statistics$defects$…` fields through
  a map and stops at the first field the map cannot translate. `EncodeFieldsSubTypes` is the same code
  run with the inverse map. The model proves that decoding undoes encoding when the two maps undo each
  other.
- **`Hash`** (`pkg/rpdac/dashboard.go`): `HashName`, the first four characters of the hex encoding of the
  name's SHA-1 digest.
- **`Dashboards`** (`pkg/rpdac/dashboard.go`): the local dashboard and widget records and the widget
  translations `ToWidget` and `FromWidget`, with their round trip. Also `ToDashboard`, the kind check of
  `LoadDashboardFromFile`, and the dashboard and widget equality.
- **`Filters`** (`pkg/rpdac/filter.go`): `ToFilter`, which fills the condition and order lists index by
  index, the accessors, and filter equality.
- **`Wire`**: the ReportPortal API records (`pkg/reportportal`) that the translations read and write.
- **`Reconciler`** (`pkg/rpdac/reportportal.go`): covers these operations.
  - `Service` dispatches on kind, and `UnmarshalObject` performs the kind switch.
  - `ApplyObject` is the create / skip / update decision.
  - `Apply` walks a directory best-effort and reports one aggregate error.
  - The ReportPortal services are `Store` objects. Each store holds its objects keyed by project and
    name, together with the keys whose lookup or write fails, and it logs every mutating call.
  - The methods of class `ReportPortal` are proved against the value-level functions `ApplyObjectSpec`,
    `ApplyFileSpec`, `WalkSpec` and `ApplySpec`. The lemmas are stated about those functions.

Several things are parameters of the model:

- YAML and JSON decoding are given as their results. A `Document` carries the decoded `kind` key and
  the file decoded as a dashboard and as a filter.
- File system access is given as a `Target` or an `Entry` sequence.
- The SHA-1 function and the JSON string encoder are function parameters.

## Model

| member | source | states |
|---|---|---|
| `Equal.CopySlice` | pkg/util/equal.go:14-18 | the copy is a fresh array with the same elements |
| `Equal.Sort` | pkg/util/equal.go:20-24 | the reference sort: its result is sorted by key and is a permutation of the input |
| `Equal.SortSlice` | pkg/util/equal.go:20-24 | after the call the array is sorted by key and holds the same multiset as before |
| `Equal.SortedPermutationsEqual` | pkg/util/equal.go:20-24 | two sorted permutations of each other agree when keys determine elements, so how a sort breaks ties cannot matter |
| `Equal.CompareSlices` | pkg/util/equal.go:26-62 | nil only equals nil; different lengths give false; with unique keys the result is `SlicesEqual` of the inputs; the inputs are unchanged |
| `Equal.SortedCopiesDecide` | pkg/util/equal.go:38-61 | with unique keys, any sorted permutations of the inputs decide the comparison position by position |
| `Equal.MatchPositions` | pkg/util/equal.go:45-61 | true exactly when every position matches: both nil, or neither nil and `Equals` holds |
| `Equal.CompareStringSlices` | pkg/util/equal.go:64-93 | the result is `SameElements`: nil only equals nil, otherwise the two are permutations of each other; the inputs are unchanged |
| `Equal.SameContents` | pkg/util/equal.go:85-92 | true exactly when the two sorted copies are equal |
| `Equal.SortPermutationInvariant` | pkg/util/equal.go:38-43 | with unique keys, sorting gives the same sequence whatever order the input came in |
| `Equal.SlicesEqualOrderInsensitive` | pkg/util/equal_test.go:49-53 | with unique keys, reordering a slice does not change the comparison |
| `Equal.SlicesEqualSymmetric` | pkg/util/equal.go:26-62 | the comparison is symmetric when `Equals` is |
| `Equal.SlicesEqualReflexive` | pkg/util/equal.go:26-62 | a slice equals itself when `Equals` is reflexive on its elements |
| `Equal.SameElementsIffSortedEqual` | pkg/util/equal.go:76-92 | two string slices have the same elements exactly when their sorted copies are equal |
| `Equal.SameElementsSymmetric` | pkg/util/equal.go:64-93 | `CompareStringSlices(l, r) == CompareStringSlices(r, l)` |
| `Equal.NilOnlyEqualsNil` | pkg/util/equal_test.go:128-138 | in both comparators and in either order, nil equals only nil |
| `Equal.StringComparatorsAgree` | pkg/util/equal.go:64-93 | the general comparator, keyed by the string with plain equality, agrees with the string comparator |
| `Kind.String` | pkg/rpdac/kind.go:15-22 | "Dashboard" exactly for DashboardKind, "Filter" exactly for FilterKind, "" exactly for kinds outside the table |
| `Kind.AssignMatchingKind` | pkg/rpdac/kind.go:52-56 | the loop over the table, in any visiting order, leaves the kind the tag names, or the old value when no entry matches |
| `Kind.UnmarshalTag` | pkg/rpdac/kind.go:47-58 | a decoding error leaves the receiver unchanged and is returned; otherwise the tag is looked up and no error is returned |
| `Kind.MarshalYAML` | pkg/rpdac/kind.go:43-45 | the YAML value is exactly `String()` and there is no error |
| `Kind.MarshalJSON` | pkg/rpdac/kind.go:25-27 | the JSON value is the encoding of `String()` and there is no error |
| `Kind.KindsDistinct` | pkg/rpdac/kind.go:9-13 | the three constants are distinct, UnknownKind is zero, and only the other two are in the table |
| `Kind.KindFromTagIsTableLookup` | pkg/rpdac/kind.go:35-39 | a tag in the table selects the kind it names; any other tag leaves the receiver alone |
| `Kind.UnrecognisedTagStaysUnknown` | pkg/rpdac/kind.go:53-57 | an unrecognised tag leaves a fresh value at UnknownKind |
| `Kind.TagRoundTrip` | pkg/rpdac/kind.go:15-22 | decoding `String(k)` gives k for the named kinds and leaves the receiver alone for every other kind |
| `Kind.TagRoundTripExactly` | pkg/rpdac/kind.go:15-22 | decoding `String(k)` into a fresh value gives k back exactly when k is one of the three constants |
| `Kind.MarshalRoundTrip` | pkg/rpdac/kind_test.go:10-79 | what either marshaller writes for a named kind decodes to that kind again |
| `Fields.DecodeField` | pkg/rpdac/dashboard.go:57-68 | a field that is not a defect field is kept; a defect field is rewritten exactly when its fourth segment is in the map, the result being the segments joined by `$` again with the fourth replaced by its map value, whatever that value holds; otherwise the error names the field |
| `Fields.DecodeFields` | pkg/rpdac/dashboard.go:53-71 | success exactly when every field decodes; then the result has the same length and entry j is field j decoded; a failure is the error of a failing field |
| `Fields.DecodeFieldsFirstError` | pkg/rpdac/dashboard.go:59-62 | the error returned is that of the first field that fails |
| `Fields.DecodeFieldsSubTypes` | pkg/rpdac/dashboard.go:53-71 | the array loop with its early return computes `DecodeFields` |
| `Fields.EncodeFieldsSubTypes` | pkg/rpdac/dashboard.go:74-79 | encoding is decoding with the encode map |
| `Fields.DecodedFieldWellFormed` | pkg/rpdac/dashboard.go:63-64 | a rewritten field is well formed again and is a defect field exactly when the original was |
| `Fields.FieldRoundTrip` | pkg/rpdac/dashboard.go:57-64 | rewriting one field through a map and then through a map that undoes it gives the field back |
| `Fields.FieldsRoundTrip` | pkg/rpdac/dashboard_test.go:1551-1553 | decoding what encoding produced gives the fields back when the decode map undoes the encode map |
| `Fields.InverseMapsUndo` | pkg/rpdac/dashboard.go:76-78 | mutually inverse maps each undo the other, so the round trip holds in both directions |
| `Hash.HexEncode` | pkg/rpdac/dashboard.go:192 | two characters per byte |
| `Hash.HexEncodeAt` | pkg/rpdac/dashboard.go:192 | byte j is written at positions 2j and 2j + 1 as its two nibbles, high nibble first |
| `Hash.HexEncodeDigits` | pkg/rpdac/dashboard.go:192 | every character of the encoding is a lower-case hex digit |
| `Hash.HashName` | pkg/rpdac/dashboard.go:189-193 | four hex digits, the nibbles of the digest's first two bytes |
| `Hash.HashNameExample` | pkg/rpdac/dashboard_test.go:2089-2097 | a digest starting with 0x9e, 0xaf gives "9eaf" |
| `Hash.HashNameDeterminesPrefix` | pkg/rpdac/dashboard.go:189-193 | two names hash alike exactly when their digests share the first two bytes |
| `Dashboards.ToDashboard` | pkg/rpdac/dashboard.go:48-50 | a Dashboard-kind dashboard with the server dashboard's name and description and exactly the given widgets, nil kept nil |
| `Dashboards.ToDashboardKeepsNil` | pkg/rpdac/dashboard.go:49 | a dashboard built from nil widgets equals no dashboard with a widget list, and one built from a widget list equals none with nil widgets, in either order |
| `Dashboards.CheckDashboardKind` | pkg/rpdac/dashboard.go:155-162 | accepted exactly when the kind is empty or "Dashboard", and then the kind becomes "Dashboard"; otherwise the error names the kind and the file |
| `Dashboards.CheckDashboardKindMatchesTag` | pkg/rpdac/dashboard.go:155-162 | the loader accepts a file exactly when its kind is empty or a tag that decodes to DashboardKind (kind.go:47-58), and gives it DashboardKind's tag; an unrecognised tag is refused, although `UnmarshalObject` would take the file as a dashboard |
| `Dashboards.AppliedFilterNames` | pkg/rpdac/dashboard.go:83-86 | the applied filters' names, in order |
| `Dashboards.FilterIds` | pkg/rpdac/dashboard.go:106-109 | one id per filter name, in order, with 0 for a name the map lacks |
| `Dashboards.WidgetFromWire` | pkg/rpdac/dashboard.go:81-102 | the translated widget takes description, type, item count and options from the widget, and size and position from the placement; its filter names keep their order; its fields are decoded; a decoding failure names the widget |
| `Dashboards.ToWidgetAsWritten` | pkg/rpdac/dashboard.go:81-102 | the method as written computes `WidgetFromWire` with the server's name copied unchanged |
| `Dashboards.ToWidget` | pkg/rpdac/dashboard_test.go:1484-1639 | the method computes `WidgetFromWire` with the ` #<hash>` suffix removed from the name, and a name without the suffix is kept |
| `Dashboards.WidgetToWire` | pkg/rpdac/dashboard.go:104-140 | the new widget is named `name #hash` and the placement keeps the plain name; both are shared; filter ids are in order; the fields are encoded; an encoding error yields no records |
| `Dashboards.FromWidget` | pkg/rpdac/dashboard.go:104-140 | the method computes `WidgetToWire` |
| `Dashboards.WidgetRoundTrip` | pkg/rpdac/dashboard.go:116-119 | a widget created with `FromWidget` and read back with `ToWidget` is the widget again, given inverse field maps and filter ids that resolve to the same names, except that a nil filter or field list comes back empty |
| `Dashboards.WidgetRoundTripNilLists` | pkg/rpdac/dashboard.go:83 | a widget with a nil filter or field list comes back with an empty one and is not equal to the widget written |
| `Dashboards.WidgetFromWireNeverEqualsNil` | pkg/rpdac/dashboard.go:83-98 | a widget read back by `ToWidget` never equals a local widget with a nil filter or field list |
| `Dashboards.WidgetRoundTripAsWritten` | pkg/rpdac/dashboard.go:94 | read back through the code as written, the widget keeps the suffix and is never equal to the original |
| `Dashboards.WidgetEqualsReflexive` | pkg/rpdac/dashboard_test.go:1912-2087 | every widget equals itself |
| `Dashboards.WidgetEqualsSymmetric` | pkg/rpdac/dashboard_test.go:1912-2087 | widget equality is symmetric |
| `Dashboards.WidgetEqualsOrderInsensitive` | pkg/rpdac/dashboard_test.go:2045-2087 | reordering filters or content fields keeps a widget equal |
| `Dashboards.WidgetNilListsDiffer` | pkg/util/equal.go:66-69 | a nil filter or field list differs from an empty one, because widget equality compares these lists with `CompareStringSlices` |
| `Dashboards.DashboardEqualsReflexive` | pkg/rpdac/dashboard_test.go:1785-1910 | every dashboard equals itself |
| `Dashboards.DashboardEqualsSymmetric` | pkg/rpdac/dashboard_test.go:1785-1910 | dashboard equality is symmetric |
| `Dashboards.DashboardEqualsOrderInsensitive` | pkg/rpdac/dashboard_test.go:1874-1889 | when widget names identify widgets, the order of a dashboard's widgets does not matter |
| `Dashboards.DashboardNilWidgetsDiffer` | pkg/rpdac/dashboard_test.go:1842-1851 | nil widgets differ from an empty widget list |
| `Dashboards.ReadBackNeverEqualsNilWidgetList` | pkg/rpdac/dashboard.go:83-98 | a dashboard whose widgets all have non-nil lists, as `ToWidget` builds them, never equals a dashboard with a widget whose filter or field list is nil |
| `Filters.ToFilter` | pkg/rpdac/filter.go:25-38 | the Filter kind; name, type and description copied; conditions and orders of the same length, each copied from the same position |
| `Filters.GetName` | pkg/rpdac/filter.go:40-42 | the filter's name |
| `Filters.GetKind` | pkg/rpdac/filter.go:44-46 | the filter's kind |
| `Filters.FilterFromWireInjective` | pkg/rpdac/filter.go:25-38 | the translation loses nothing: equal translations come from server filters with equal fields |
| `Filters.MapPermutation` | pkg/rpdac/filter.go:27-35 | copying element-wise maps permutations to permutations |
| `Filters.FilterFromWireOrderInsensitive` | pkg/rpdac/filter_test.go:761-855 | server filters that list the same conditions and orders in other orders translate to equal filters |
| `Filters.FilterEqualsReflexiveSymmetric` | pkg/rpdac/filter_test.go:656-895 | filter equality is reflexive and symmetric |
| `Filters.FilterNilListsDiffer` | pkg/rpdac/filter_test.go:710-729 | nil conditions or orders differ from empty ones |
| `Filters.FilterFromWireNeverEqualsNil` | pkg/rpdac/filter.go:27-37 | `ToFilter` always builds non-nil lists, so its result never equals a filter with nil conditions or orders |
| `Filters.ConditionsCompareAsSlices` | pkg/util/equal.go:26-62 | when a key identifies conditions, the multiset comparison is what `CompareSlices` with plain equality computes |
| `Reconciler.GetName` | pkg/rpdac/reportportal.go:26-30 | the name of the dashboard or filter |
| `Reconciler.GetKind` | pkg/rpdac/reportportal.go:26-30 | the Dashboard kind for a dashboard, and the kind field for a filter |
| `Reconciler.ObjectEqualsReflexive` | pkg/rpdac/reportportal.go:211-214 | every object equals itself |
| `Reconciler.Service` | pkg/rpdac/reportportal.go:57-66 | the dashboard service exactly for DashboardKind and the filter service exactly for FilterKind; otherwise an error naming the kind |
| `Reconciler.ServiceSupportsNamedKinds` | pkg/rpdac/reportportal.go:57-66 | a kind is served exactly when the table names it, so UnknownKind is refused |
| `Reconciler.GenericKind` | pkg/rpdac/reportportal.go:232-236 | a malformed header is the error; otherwise the kind is UnknownKind, DashboardKind or FilterKind |
| `Reconciler.ObjectForKind` | pkg/rpdac/reportportal.go:238-254 | Dashboard and UnknownKind decode a dashboard carrying that kind, Filter decodes a filter, any other kind is refused |
| `Reconciler.UnmarshalObjectDispatch` | pkg/rpdac/reportportal.go:239-249 | tag "Filter" gives a filter; tag "Dashboard", a missing tag or any unrecognised tag gives a dashboard |
| `Reconciler.UnmarshalObjectAlwaysServed` | pkg/rpdac/reportportal.go:244-248 | the refusing branch is unreachable; and, given the choice that a dashboard reports DashboardKind (see `Reconciler.GetKind` under Left out), every decoded object has a kind that `Service` accepts |
| `Reconciler.Store.GetByName` | pkg/rpdac/reportportal.go:204 | the lookup reports failure, the found object or nothing, and changes nothing |
| `Reconciler.Store.Create` | pkg/rpdac/reportportal.go:223 | the call is logged, and the object is stored unless the write fails |
| `Reconciler.Store.Update` | pkg/rpdac/reportportal.go:216 | the call is logged with the current and the target object, and the target is stored unless the write fails |
| `Reconciler.ApplyObjectUnsupported` | pkg/rpdac/reportportal.go:199-202 | an unsupported kind fails with no call to any service |
| `Reconciler.ApplyObjectLookupFails` | pkg/rpdac/reportportal.go:204-207 | a failing lookup is reported with the kind, the name and the cause, and neither service changes |
| `Reconciler.ApplyObjectCreates` | pkg/rpdac/reportportal.go:223-227 | nothing found: exactly one Create is logged on the object's own service, the other service is untouched, and on success the object is stored under its name |
| `Reconciler.ApplyObjectSkips` | pkg/rpdac/reportportal.go:209-214 | found and equal: no mutating call and success |
| `Reconciler.ApplyObjectUpdates` | pkg/rpdac/reportportal.go:216-220 | found but different: exactly one Update from the found object to the new one, the other service untouched, and on success the new object is stored |
| `Reconciler.ApplyObjectAtMostOneCall` | pkg/rpdac/reportportal.go:197-228 | each service's log is unchanged or grows by exactly one call |
| `Reconciler.ApplyObjectIdempotent` | pkg/rpdac/reportportal.go:197-228 | against a store that reads back exactly what was written, applying an object again after a success changes nothing and succeeds |
| `Reconciler.ApplyFilterReadBackUpdates` | pkg/rpdac/reportportal.go:209-220 | a filter with nil conditions or orders, found as `ToFilter` reads it back, gets exactly one Update on every apply, and the dashboard service is untouched |
| `Reconciler.ApplyDashboardReadBackUpdates` | pkg/rpdac/reportportal.go:209-220 | a dashboard with a widget whose filter or field list is nil, found with widgets as `ToWidget` reads them back, gets exactly one Update on every apply, and the filter service is untouched |
| `Reconciler.ApplyFileErrorsFirst` | pkg/rpdac/reportportal.go:182-195 | a read or decode error is returned, wrapped with the file, before any service is asked |
| `Reconciler.WalkComposes` | pkg/rpdac/reportportal.go:145-167 | a failure does not stop the walk: later entries are applied from the state earlier ones left, and the flags combine by or |
| `Reconciler.WalkSkipsInapplicable` | pkg/rpdac/reportportal.go:147-160 | walk errors, directories and files not named `.yml` or `.yaml` change nothing and set no flag |
| `Reconciler.WalkFailedIff` | pkg/rpdac/reportportal.go:162-165 | the flag is set exactly when some applicable entry fails, each applied to the state the earlier ones left |
| `Reconciler.ApplyDirectoryNeedsRecursive` | pkg/rpdac/reportportal.go:139-143 | a directory without the recursive option is refused before any file is applied |
| `Reconciler.ApplyDirectoryFailsIff` | pkg/rpdac/reportportal.go:145-176 | a recursive apply fails exactly when some applicable entry fails |
| `Reconciler.ReportPortal.ApplyObject` | pkg/rpdac/reportportal.go:197-228 | the new state of both services and the error are those of `ApplyObjectSpec` |
| `Reconciler.ReportPortal.ApplyFile` | pkg/rpdac/reportportal.go:182-195 | the new state and the error are those of `ApplyFileSpec` |
| `Reconciler.ReportPortal.Walk` | pkg/rpdac/reportportal.go:145-167 | the loop with the `failed` flag computes `WalkSpec` |
| `Reconciler.ReportPortal.Apply` | pkg/rpdac/reportportal.go:130-180 | the new state and the error are those of `ApplySpec` |

## Left out

- The HTTP client and services of `pkg/reportportal` are left out. The remote is an abstract store whose
  lookups and writes fail on given keys, and not-found is an outcome rather than an error type.
- The command-line wiring in `cmd/` is left out.
- YAML and JSON encoding and decoding, file reads and writes, `filepath.WalkDir` and `os.Stat` are
  given as their results. The WalkDir error return at reportportal.go:168-170 cannot happen, because
  the callback always returns nil.
- Logging is left out.
- SHA-1 itself is left out; the digest function is a parameter.
- `Export` and `Create` of reportportal.go are not part of this model, and neither is `pkg/rpdac/object.go`; the reconciler covers `Apply`, whose object path `Create` shares.
- The construction of the sub-type maps from the project settings is left out; the maps are inputs.
- Widget options are a `map<string, string>` compared by equality, so a nil options map and an empty one
  are not distinguished.
- `WidgetSize`, `WidgetPosition` and the content parameters are values, so nil pointers there are not modelled.
- Go compares strings byte by byte; the model orders `char` sequences by code point, which is the same order.
- Equal.CompareSlices: the result is specified only when keys are unique, which is the contract the
  source states at equal.go:10-11. Nil elements are admitted only in slices of at most one element,
  because `Key()` on a nil element panics inside the sort.
- Filters.FilterEquals and Dashboards.WidgetEquals: the `Equals` methods of the local records and their
  `Key()` are not in the source files. They are specified from the tests. Filter conditions and orders
  compare as multisets; `ConditionsCompareAsSlices` connects this to `CompareSlices` when a key
  identifies elements. The tests pin nil against empty only for dashboard widgets
  (dashboard_test.go:1842-1851) and for filter conditions and orders (filter_test.go:710-729). That a
  nil widget filter or content-field list differs from an empty one is inferred from comparing those
  lists with `CompareStringSlices`, as the string-slice comparator of equal.go does.
- The records in dashboard.go and filter.go declare `Kind` as a string. The tests disagree:
  reportportal_test.go mixes the strings "Dashboard" and "Filter" with the constant `DashboardKind`,
  while dashboard_test.go, filter_test.go and kind_test.go use `DashboardKind` and `FilterKind`. The model follows the latter
  and uses `ObjectKind`, and `ToWidget` takes the dashboard hash the tests pass.
  `ToDashboard` copies the description, which the tests expect. `reportportal.Filter` is reduced to the
  fields `ToFilter` reads.
- Reconciler.GetKind: how a dashboard reports its kind is not in the source files. The model reports
  DashboardKind, so a dashboard decoded under the UnknownKind default is still served. Had a
  dashboard reported its own kind field instead, as a filter does, a file without `kind:` would be
  refused at reportportal.go:198-201; `UnmarshalObjectAlwaysServed` rests on this choice.
- Dashboards.ToDashboard: the `origin` back-reference, the server record a fetched dashboard keeps
  for later updates, is not modelled; the dashboard records hold no server ids.
- Reconciler.ApplyObjectIdempotent: it holds only for a store that reads back exactly the object
  written. The ReportPortal services read back through `ToFilter` and `ToWidget`, which always build
  non-nil lists, so a filter file without `conditions:` or `orders:`, or a dashboard with a widget
  without `filters:` or `contentFields:`, is updated on every apply. `ApplyFilterReadBackUpdates` and
  `ApplyDashboardReadBackUpdates` state this. The store itself does not translate objects through the
  server records.
- Fields.DecodeField: it requires the segments the source indexes without a check (`p[1]` and `p[3]`).
  The source would panic on other inputs.

## Findings

| source | as written | input that shows it | evidently intended | confidence | as-written member | corrected member |
|---|---|---|---|---|---|---|
| pkg/rpdac/dashboard.go:94 | `ToWidget` copies the server widget's name unchanged | a widget created by `FromWidget` for a dashboard with hash `9eaf` is named `X #9eaf` on the server and is read back named `X #9eaf`, not `X` | remove the ` #<hash>` suffix that `FromWidget` adds, as the tests at dashboard_test.go:1555-1561 expect | not executed | `Dashboards.WidgetRoundTripAsWritten` | `Dashboards.WidgetRoundTrip` |
