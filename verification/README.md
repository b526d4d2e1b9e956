# Fleet telemetry dashboard: a verified model of its client-side state

This Dafny project models the logic core of a fleet telemetry dashboard. The model covers:

- the **fleet store**: vehicle snapshots, the selected vehicle, the list-view query, the retained alerts and the online flag;
- the two **read-only views** over that store;
- the **telemetry ingestion path**: the threshold alert rules, the occasional demo alert, and the event handler that feeds both into the store;
- the **interface store**: sidebar and drawer flags, the effective connectivity flag, customize mode and the persisted section order;
- the **panel-order store**: validation of a stored order, and the drag-mode flag;
- the **fleet overview figures**: status counts, the battery histogram and the average;
- the shell's **section reordering** by drag and drop;
- the **per-vehicle random source** of the efficiency chart: 32-bit FNV-1a seeding a `mulberry32` generator.

Each store, and the generator closure, becomes a Dafny `class`:

- `FleetStore.Fleet`
- `UiStore.Ui`
- `LayoutStore.Layout`
- `SeedHash.Mulberry32`

Each class's fields are the state the source updates in place. Each of its methods changes exactly what the corresponding action changes. Pure selectors and validations are functions. Loops in the source are methods with loop invariants, proved equal to a specification function:

- the dedup scan in `pushAlert`;
- `thresholdAlerts`;
- the two overview loops;
- `hashStr`;
- the generator draws.

Properties relating several calls are lemmas about those functions.

Ambient inputs become parameters:

| Input | How it is modelled |
|---|---|
| `Date.now()` | `now`, and `mockNow` for the demo alert |
| `Math.random()` | `gate`, `pickVehicle`, `pickKind` |
| `navigator.onLine` | `navOnline` |
| whether a `window` exists | `hasWindow` |
| whether a storage write succeeds | `writeOk` |
| what `localStorage` + `JSON.parse` return | `Storage.Stored`: missing, unparsable, or a parsed `Json` value |

Persisted values are fields of the stores (`Ui.storedLayout`, `Layout.saved`).

Files (one module each):

| File | Module | Models |
|---|---|---|
| `options.dfy` | `Options` | `Option` |
| `seqs.dfy` | `Seqs` | filter, cap, reverse |
| `storage.dfy` | `Storage` | the parsed stored value |
| `fleet_store.dfy` | `FleetStore` | `src/stores/fleetStore.ts`: types, alert retention, the store class |
| `fleet_selectors.dfy` | `FleetSelectors` | the selectors of `src/stores/fleetStore.ts` |
| `telemetry.dfy` | `Telemetry` | `src/hooks/useTelemetry.ts` |
| `ui_store.dfy` | `UiStore` | `src/stores/uiStore.ts` |
| `layout_store.dfy` | `LayoutStore` | `src/stores/layoutStore.ts` |
| `overview.dfy` | `FleetOverview` | `src/components/overview/Overview.tsx` |
| `app_shell.dfy` | `AppShell` | `src/components/layout/AppShell.tsx` |
| `seed_hash.dfy` | `SeedHash` | `src/components/charts/EfficiencyLineChart.tsx` |

## Model

| member | source | states |
|---|---|---|
| Storage.EncodeStrings | src/stores/uiStore.ts:64 | A stringified string array reads back as an array of the same length with the i-th string at position i |
| FleetStore.NextSelection | src/stores/fleetStore.ts:84-91 | The first non-empty batch selects its first vehicle. A later batch keeps a selection it contains. A truthy selection missing from the batch falls back to the batch's first id, or to null for an empty batch. Null and "" are left alone. A truthy result always names a vehicle of the batch |
| FleetStore.SelectionStable | src/stores/fleetStore.ts:84-91 | Delivering the same batch again does not move the selection |
| FleetStore.AcceptsBatch | src/stores/fleetStore.ts:79-80 | A batch is taken while online, or when the list is empty; an offline store that already holds vehicles ignores it. No ensures: `SetVehicles` states its effect |
| FleetStore.Truthy | src/stores/fleetStore.ts:88 | A selection that is neither null nor "". No ensures: `NextSelection` states its effect |
| FleetStore.HasVehicle | src/stores/fleetStore.ts:88 | `incoming.some(v => v.id === sel)`: some vehicle of the list has the id. No ensures: `NextSelection` states its effect |
| FleetStore.FirstOccurrencesFacts | src/stores/fleetStore.ts:103-108 | The dedup scan keeps only alerts of its input whose id was not yet seen, and its output has no repeated id. It keeps the first occurrence of every id outside `seen` |
| FleetStore.FirstOccurrences | src/stores/fleetStore.ts:102-108 | The `seen`-set scan without the cap. It never lengthens its input; `FirstOccurrencesFacts` states what it keeps |
| FleetStore.FirstOccurrencesOfDistinct | src/stores/fleetStore.ts:103-108 | On a list with distinct ids, the dedup scan drops exactly the alerts whose id was already seen |
| FleetStore.FirstOccurrencesPrepend | src/stores/fleetStore.ts:102-108 | Scanning `[a, ...alerts]` keeps `a`, then scans the old list with `a.id` already seen |
| FleetStore.WithoutId | src/stores/fleetStore.ts:114 | Acknowledging keeps exactly the alerts with another id. An unknown id leaves the list as it was. Distinct ids stay distinct |
| FleetStore.IdOtherThan | src/stores/fleetStore.ts:114 | The `ackAlert` filter predicate `a.id !== id`. No ensures: `WithoutId` states its effect |
| FleetStore.FilterKeepsDistinct | src/stores/fleetStore.ts:114 | Removing alerts from a list with distinct ids keeps the ids distinct |
| FleetStore.AlertsAfterPush | src/stores/fleetStore.ts:99-112 | After an online push the list is valid: at most 50 alerts, no duplicate id. Its head is the new alert. Its tail is the old list's first occurrences of ids other than the new one, in their original order, capped at 49. Every retained alert is the new one or an old one with a different id |
| FleetStore.PushReplacesSameId | src/stores/fleetStore.ts:102-111 | When the list already has distinct ids, a push equals: drop the old alert with the same id, prepend, cap at 50 |
| FleetStore.AlertsAfterPushes | src/hooks/useTelemetry.ts:81 | Pushing a sequence while offline changes nothing. Pushing a non-empty sequence while online leaves a valid list |
| FleetStore.AlertsAfterPushesSnoc | src/hooks/useTelemetry.ts:81 | Pushing one more alert continues from the list the earlier pushes left |
| FleetStore.PushesOfFreshIds | src/stores/fleetStore.ts:99-112 | Online pushes of alerts with new, distinct ids leave them newest first ahead of the old list, capped at 50 |
| FleetStore.KeepFirstCapped | src/stores/fleetStore.ts:102-110 | The `seen`/`deduped` loop with its early stop at 50 computes the first occurrence of every id, capped at 50 |
| FleetStore.Fleet.constructor | src/stores/fleetStore.ts:65-75 | Initial state: no vehicles, no selection, empty search, filter "all", no sort key, no alerts, online |
| FleetStore.Fleet.SetOnline | src/stores/fleetStore.ts:76 | Sets only the online flag |
| FleetStore.Fleet.SetVehicles | src/stores/fleetStore.ts:78-92 | While offline with vehicles present, changes nothing. Otherwise the list becomes exactly the batch, and the selection follows `NextSelection`. No other field changes |
| FleetStore.Fleet.SelectVehicle | src/stores/fleetStore.ts:94 | Sets only the selection, without checking that the vehicle exists |
| FleetStore.Fleet.SetSearch | src/stores/fleetStore.ts:95 | Sets only the search text |
| FleetStore.Fleet.SetFilterStatus | src/stores/fleetStore.ts:96 | Sets only the status filter |
| FleetStore.Fleet.SetSortBy | src/stores/fleetStore.ts:97 | Sets only the sort key |
| FleetStore.Fleet.PushAlert | src/stores/fleetStore.ts:99-112 | While offline the alerts are unchanged. While online they become `AlertsAfterPush` and the list is valid. Nothing else changes |
| FleetStore.Fleet.AckAlert | src/stores/fleetStore.ts:114 | The alerts become `WithoutId(old, id)`. A valid list stays valid. Nothing else changes |
| FleetStore.Fleet.AckAll | src/stores/fleetStore.ts:116 | Empties the alert list whatever the online flag. Nothing else changes |
| FleetSelectors.FirstIndexOf | src/stores/fleetStore.ts:120 | Gives the first position whose vehicle has the id, or the length when no vehicle has it |
| FleetSelectors.SelectedVehicle | src/stores/fleetStore.ts:119-120 | Present exactly when a vehicle carries the selected id. It is then the first such vehicle |
| FleetSelectors.SelectedAfterBatch | src/stores/fleetStore.ts:84-90 | After a first batch or a truthy selection, a non-empty accepted batch always yields a selected vehicle of the batch |
| FleetSelectors.TrimStart | src/stores/fleetStore.ts:125 | Drops exactly the leading white space |
| FleetSelectors.TrimEnd | src/stores/fleetStore.ts:125 | Drops exactly the trailing white space |
| FleetSelectors.Trim | src/stores/fleetStore.ts:125 | The result neither starts nor ends with white space. Text without white space at either end is unchanged |
| FleetSelectors.TrimSlice | src/stores/fleetStore.ts:125 | The trimmed text is a contiguous slice of the input, and everything cut before and after it is white space |
| FleetSelectors.IsTrimmable | src/stores/fleetStore.ts:125 | The white space and line terminators `trim` removes. No ensures: `TrimStart`, `TrimEnd` and `TrimSlice` state its effect |
| FleetSelectors.ToLower | src/stores/fleetStore.ts:125 | Same length, each character lower-cased |
| FleetSelectors.Contains | src/stores/fleetStore.ts:128 | True exactly when the needle occurs at some position of the text |
| FleetSelectors.LowerCharFacts | src/stores/fleetStore.ts:125 | Lower-casing leaves no upper-case ASCII letter and neither adds nor removes white space |
| FleetSelectors.Query | src/stores/fleetStore.ts:125 | The query is no longer than the search text, has no upper-case ASCII letter and no white space at either end. A search of white space alone gives the empty query |
| FleetSelectors.QueryIsLoweredSlice | src/stores/fleetStore.ts:125 | The query is the search text, with only white space cut off at either end, lower-cased |
| FleetSelectors.Shown | src/stores/fleetStore.ts:126-134 | The status filter always applies. The empty query hides nothing the status filter lets through. Otherwise the lower-cased name or id must contain the query |
| FleetSelectors.KeyOf | src/stores/fleetStore.ts:137-141 | The field a sort key compares: battery, speed or distance. No ensures: `SortDesc` and `FilteredSortedVehicles` state the order it induces |
| FleetSelectors.SortedDescPairwise | src/stores/fleetStore.ts:138-143 | Non-increasing on neighbours is equivalent to non-increasing on every pair |
| FleetSelectors.Insert | src/stores/fleetStore.ts:138-143 | Inserting into a sorted list keeps it sorted, and the list grows by one |
| FleetSelectors.InsertPermutes | src/stores/fleetStore.ts:138-143 | Inserting adds exactly the new vehicle to the multiset |
| FleetSelectors.InsertStable | src/stores/fleetStore.ts:138-143 | The inserted vehicle goes ahead of the vehicles with an equal key. Vehicles with other keys keep their order |
| FleetSelectors.SortDesc | src/stores/fleetStore.ts:136-144 | The sort gives a non-increasing permutation. Vehicles with equal keys keep their input order (stability) |
| FleetSelectors.FilteredSortedVehicles | src/stores/fleetStore.ts:122-147 | Contains each vehicle that matches the trimmed, lower-cased query and the status filter, as often as in the store, and no other vehicle. Without a sort key it keeps store order. With one it is a stable sort, non-increasing by that key |
| FleetSelectors.ShownIsSearchThenStatus | src/stores/fleetStore.ts:125-134 | The search filter followed by the status filter is one filter by "matches query and status" |
| Seqs.Filter | src/stores/fleetStore.ts:127-133 | `filter` keeps exactly the elements that pass, and never lengthens |
| Seqs.FilterMultiset | src/stores/fleetStore.ts:127-133 | `filter` keeps every passing element as often as it occurs, and drops the rest |
| Seqs.FilterFilter | src/stores/fleetStore.ts:127-133 | Two filters in a row equal one filter by the conjunction |
| Seqs.FilterAppend | src/stores/fleetStore.ts:127-133 | `filter` distributes over concatenation |
| Seqs.Take | src/stores/fleetStore.ts:109 | The cap gives a prefix of length min(n, length) |
| Seqs.TakePrependTake | src/stores/fleetStore.ts:102-109 | Capping, prepending and capping again equals prepending then capping once |
| Telemetry.NatToString | src/hooks/useTelemetry.ts:11 | The timestamp in an id is a non-empty string of decimal digits |
| Telemetry.Tag | src/hooks/useTelemetry.ts:11-42 | The last part of an id has at least two characters and no hyphen |
| Telemetry.AlertId | src/hooks/useTelemetry.ts:11-42 | The id template `now-vehicleId-tag`. No ensures: `AlertIdShape` and `AlertIdInjective` state its properties |
| Telemetry.AlertIdShape | src/hooks/useTelemetry.ts:11-42 | An id opens with the decimal time and a hyphen, and closes with a hyphen and the tag |
| Telemetry.AlertIdInjective | src/hooks/useTelemetry.ts:11-42 | Two equal ids `now-vehicleId-tag` have the same tag. With the same timestamp they also have the same vehicle |
| Telemetry.TagEndsDistinct | src/hooks/useTelemetry.ts:11-66 | No two alert kinds' tags end in the same two characters |
| Telemetry.KindsApartIdsApart | src/hooks/useTelemetry.ts:66 | An id tagged with a demo kind never equals one tagged with a threshold kind |
| Telemetry.SeverityFor | src/hooks/useTelemetry.ts:14-45 | Critical exactly for overheating and for a battery under 10; info exactly for charging complete; warning otherwise |
| Telemetry.RuleAlert | src/hooks/useTelemetry.ts:10-48 | An unacknowledged alert about the vehicle, of the rule's kind, stamped `now`, with the rule's severity and an id built from its own time, vehicle and kind |
| Telemetry.Fires | src/hooks/useTelemetry.ts:9-40 | Only the four threshold kinds can fire |
| Telemetry.TireOut | src/hooks/useTelemetry.ts:30 | A pressure below 30 or above 38. No ensures: `VehicleRulesFire` states the bounds |
| Telemetry.SomeTireOut | src/hooks/useTelemetry.ts:29-30 | Some of the four tyres is out of range. No ensures: `VehicleRulesFire` states its effect |
| Telemetry.MessageFor | src/hooks/useTelemetry.ts:15-63 | The message template and arguments of each alert kind. No ensures: the text formatting is left out |
| Telemetry.Rule | src/hooks/useTelemetry.ts:9-49 | A rule yields at most one alert, present exactly when it fires, and that alert is its `RuleAlert` |
| Telemetry.HasKindRule | src/hooks/useTelemetry.ts:9-49 | A rule's output holds its own kind exactly when the rule fires |
| Telemetry.VehicleAlerts | src/hooks/useTelemetry.ts:8-50 | One vehicle yields at most four alerts |
| Telemetry.VehicleRulesFire | src/hooks/useTelemetry.ts:9-49 | The alerts of a vehicle include each kind exactly when its rule fires: battery < 20; temperature > 60 (60 does not fire); some tyre < 30 or > 38 (30 and 38 are in range); speed > 110 (110 does not fire). No other kind appears |
| Telemetry.VehicleAlertsShape | src/hooks/useTelemetry.ts:9-49 | Each alert carries the vehicle id, `ts = now` and id `now-id-tag`. Kinds come in rule order without repetition. An alert is critical exactly for a high temperature or a battery under 10 |
| Telemetry.VehicleAlertsRanked | src/hooks/useTelemetry.ts:9-49 | The kinds of one vehicle's alerts come in order battery, temp, tire, speed |
| Telemetry.RuleAlertSeverity | src/hooks/useTelemetry.ts:14-45 | A rule alert is critical exactly for a high temperature, or a battery under 10 |
| Telemetry.BatchAlerts | src/hooks/useTelemetry.ts:4-53 | A snapshot yields at most four alerts per vehicle. An empty snapshot yields none |
| Telemetry.BatchAlertsFacts | src/hooks/useTelemetry.ts:6-49 | Every threshold alert is stamped `now`, belongs to a vehicle of the snapshot, has id `now-vehicleId-tag`, and is of a threshold kind |
| Telemetry.BatchAlertsAppend | src/hooks/useTelemetry.ts:8-50 | The alerts of two concatenated snapshots are the first snapshot's alerts followed by the second's |
| Telemetry.GroupedByVehicle | src/hooks/useTelemetry.ts:8-50 | The output is grouped by vehicle in snapshot order |
| Telemetry.VehicleAlertIdsDistinct | src/hooks/useTelemetry.ts:11-42 | The alerts of one vehicle have distinct ids |
| Telemetry.BatchIdsDistinct | src/hooks/useTelemetry.ts:6-49 | Within one snapshot with distinct vehicle ids, threshold alert ids are distinct |
| Telemetry.AppendVehicleAlerts | src/hooks/useTelemetry.ts:9-49 | The four `if` blocks append exactly the vehicle's rule alerts |
| Telemetry.ThresholdAlerts | src/hooks/useTelemetry.ts:4-53 | The `forEach` loop returns exactly `BatchAlerts(snapshot, now)` |
| Telemetry.FloorIndex | src/hooks/useTelemetry.ts:58 | `Math.floor(x * n)` for x in [0, 1) is an index below n |
| Telemetry.RandomMockAlerts | src/hooks/useTelemetry.ts:55-67 | Returns nothing for an empty snapshot or a gate draw above 0.1, and otherwise exactly one alert. The alert is for a vehicle of the snapshot, of kind geofence or harsh braking (warning) or charging complete (info), with id `now-vehicleId-type` |
| Telemetry.TaggedApart | src/hooks/useTelemetry.ts:66 | Alerts of demo kinds and alerts of threshold kinds share no id |
| Telemetry.DemoIdsFresh | src/hooks/useTelemetry.ts:55-67 | A demo alert never shares an id with a threshold alert, whatever the two timestamps |
| Telemetry.EventAlertIdsDistinct | src/hooks/useTelemetry.ts:81 | With distinct vehicle ids, the alerts one event pushes have distinct ids |
| Telemetry.HandleTelemetry | src/hooks/useTelemetry.ts:76-82 | A non-array payload changes nothing. Otherwise the store first takes the snapshot as `setVehicles` does. Then it pushes the threshold alerts and then the demo alert, in that order. The query fields and the online flag are untouched |
| Telemetry.PushAll | src/hooks/useTelemetry.ts:81 | `forEach(pushAlert)` leaves `AlertsAfterPushes` of the old list and changes no other field |
| Telemetry.EventPushesFresh | src/hooks/useTelemetry.ts:81 | While online, an event whose alerts reuse no retained id leaves them newest first ahead of the old list, capped at 50 |
| UiStore.LoadLayout | src/stores/uiStore.ts:22-29 | Returns the stored array when it holds only strings, whatever its length or repetitions. Returns the default order otherwise |
| UiStore.IsStringArray | src/stores/uiStore.ts:26 | The stored value parsed to an array whose elements are all strings. No ensures: `LoadLayout` states its effect |
| UiStore.LoadLayoutRoundTrip | src/stores/uiStore.ts:26-28 | Any saved order loads back unchanged |
| UiStore.Ui.constructor | src/stores/uiStore.ts:31-61 | Initial flags are false, online is the browser's flag, and the layout is loaded from storage. The invariant "simulated outage implies offline" holds |
| UiStore.Ui.Expand | src/stores/uiStore.ts:33 | Sets `sidebarCollapsed` to false and touches nothing else |
| UiStore.Ui.Collapse | src/stores/uiStore.ts:34 | Sets `sidebarCollapsed` to true and touches nothing else |
| UiStore.Ui.OpenMobile | src/stores/uiStore.ts:37 | Sets `mobileOpen` to true and touches nothing else |
| UiStore.Ui.CloseMobile | src/stores/uiStore.ts:38 | Sets `mobileOpen` to false and touches nothing else |
| UiStore.Ui.ToggleDemoOffline | src/stores/uiStore.ts:42-46 | Negates `demoOffline` and sets `online = navOnline && !demoOffline`. Establishes the invariant |
| UiStore.Ui.NetworkUpdate | src/stores/uiStore.ts:49-52 | Sets `online = navOnline && !demoOffline`, so an "online" event during a simulated outage keeps the store offline |
| UiStore.Ui.InitNetworkWatch | src/stores/uiStore.ts:47-56 | Without a window, nothing. Otherwise one immediate update. Preserves the invariant |
| UiStore.Ui.ToggleCustomize | src/stores/uiStore.ts:59 | Flips `customizeMode` only |
| UiStore.Ui.SetLayoutOrder | src/stores/uiStore.ts:62-65 | The order becomes exactly the argument. A successful write stores it so that it loads back unchanged. A failed write leaves storage as it was |
| UiStore.ToggleDemoOfflineTwice | src/stores/uiStore.ts:42-46 | Toggling twice, in step with the browser, restores both flags |
| UiStore.ToggleCustomizeTwice | src/stores/uiStore.ts:59 | Toggling twice restores customize mode |
| LayoutStore.Load | src/stores/layoutStore.ts:16-30 | Returns the stored order exactly when a window exists and the stored value is an array of three known panel names. Otherwise, including a missing key, unparsable text or no window, returns the default order |
| LayoutStore.Acceptable | src/stores/layoutStore.ts:22-25 | The validation: an array of as many elements as the default order, each a known panel name, repetitions allowed. No ensures: `Load` and `RepeatedPanelsAccepted` state its effect |
| LayoutStore.IsPanelName | src/stores/layoutStore.ts:25 | `BASE.includes(x)`: one of the three panel names. No ensures: `Load` and `RepeatedPanelsAccepted` state its effect |
| LayoutStore.EncodePanels | src/stores/layoutStore.ts:35 | `JSON.stringify(order)` as it parses back. No ensures: `LoadRoundTrip` and `Layout.SetOrder` state its effect |
| LayoutStore.LoadRoundTrip | src/stores/layoutStore.ts:22-26 | A saved order loads back as written when it has three panels. Otherwise the default order is loaded |
| LayoutStore.RepeatedPanelsAccepted | src/stores/layoutStore.ts:22-26 | Three times "alerts" passes validation, so a restored order need not be a permutation of the default |
| LayoutStore.Layout.constructor | src/stores/layoutStore.ts:39-41 | The order is loaded from storage and drag mode is off |
| LayoutStore.Layout.SetOrder | src/stores/layoutStore.ts:32-45 | The order becomes exactly `next`. It is saved when a window exists and the write succeeds, and a saved three-panel order loads back. Drag mode is untouched |
| LayoutStore.Layout.ToggleDragMode | src/stores/layoutStore.ts:46 | Flips drag mode. The order is untouched |
| LayoutStore.Layout.DisableDragMode | src/stores/layoutStore.ts:47 | Turns drag mode off. The order is untouched |
| FleetOverview.CategoryOf | src/components/overview/Overview.tsx:23-32 | A truthy override decides the counter: "active", "inactive", "shop" and "out" select their own counter, and an unknown value counts nowhere. Without an override, idle counts as inactive, and moving or charging as active |
| FleetOverview.Count | src/components/overview/Overview.tsx:21-33 | A counter never exceeds the fleet size |
| FleetOverview.InBucket | src/components/overview/Overview.tsx:41-44 | A bucket counter never exceeds the fleet size; `BucketsPartition` and `BatteryStats` state the rest |
| FleetOverview.CountsPartition | src/components/overview/Overview.tsx:21-33 | The four counters plus the uncounted vehicles add up to the fleet size |
| FleetOverview.StatusCountsBound | src/components/overview/Overview.tsx:21-33 | active + inactive + shop + out <= count. Equality holds when no override holds an unknown value |
| FleetOverview.CountStatuses | src/components/overview/Overview.tsx:21-33 | The counting loop yields exactly the four category counts |
| FleetOverview.Clamp | src/components/overview/Overview.tsx:39 | Clamps into [0, 100], is the identity inside that range, and sends out-of-range readings to the nearer bound |
| FleetOverview.Bucket | src/components/overview/Overview.tsx:41-44 | Gives the half-open bucket holding the reading: [0,25), [25,50), [50,75) or [75,100] |
| FleetOverview.SumClamped | src/components/overview/Overview.tsx:37-40 | The sum of clamped readings lies between 0 and 100 times the fleet size |
| FleetOverview.BucketsPartition | src/components/overview/Overview.tsx:38-45 | Every vehicle lands in exactly one bucket, so the four counts add up to the fleet size |
| FleetOverview.Average | src/components/overview/Overview.tsx:46 | `count ? sum / count : 0`: 0 for no vehicles, otherwise the value that times the count gives the sum |
| FleetOverview.AverageInRange | src/components/overview/Overview.tsx:46 | The average lies in [0, 100] |
| FleetOverview.BatteryStats | src/components/overview/Overview.tsx:35-46 | The second loop yields the clamped sum and the four bucket counts, which add up to the count. The average is 0 for an empty fleet and otherwise in [0, 100] |
| AppShell.Ordered | src/components/layout/AppShell.tsx:28 | Keeps exactly the section keys of the stored order, with their multiplicities. A list of section keys only is unchanged. `OrderedAppend` and `OrderedSingleton` state that they stay in stored order |
| AppShell.OrderedAppend | src/components/layout/AppShell.tsx:28 | The section keys of two concatenated orders are those of the first followed by those of the second |
| AppShell.OrderedSingleton | src/components/layout/AppShell.tsx:28 | A single entry is kept exactly when it names a section. With `OrderedAppend` this fixes the stored order |
| AppShell.IsSection | src/components/layout/AppShell.tsx:22-28 | A key of the section table, which are exactly the ids of the default order |
| AppShell.RemoveAt | src/components/layout/AppShell.tsx:34 | `splice(k, 1)` removes the element at k and shifts the rest left |
| AppShell.InsertAt | src/components/layout/AppShell.tsx:35 | `splice(k, 0, x)` puts x at k, and removing it again gives the original |
| AppShell.Move | src/components/layout/AppShell.tsx:33-35 | The move is a permutation that puts the moved id at the destination and keeps all other ids in their relative order |
| AppShell.MovedOrderKnown | src/components/layout/AppShell.tsx:28-36 | A moved order holds only section keys |
| AppShell.OnDragEnd | src/components/layout/AppShell.tsx:31-37 | A drop without a destination changes nothing. Otherwise the order becomes the filtered order with the section moved, holds no unknown id, and is saved when the write succeeds |
| SeedHash.CodeUnits | src/components/charts/EfficiencyLineChart.tsx:25 | A character is one UTF-16 code unit below U+10000, and two code units above |
| SeedHash.Utf16 | src/components/charts/EfficiencyLineChart.tsx:25 | A string has at least as many code units as characters |
| SeedHash.FnvStep | src/components/charts/EfficiencyLineChart.tsx:25 | One step `Math.imul(h ^ c, 16777619)` on 32-bit values. No ensures: `Fnv1aSnoc` states the step and `Fnv1aOfA` checks it against the published hash |
| SeedHash.Fnv1a | src/components/charts/EfficiencyLineChart.tsx:24-26 | The fold of `FnvStep` from 2166136261. No ensures: `FnvFromAppend`, `Fnv1aEmpty` and `Fnv1aOfA` state its properties |
| SeedHash.FnvFromAppend | src/components/charts/EfficiencyLineChart.tsx:24-25 | The hash folds code units strictly left to right |
| SeedHash.Fnv1aSnoc | src/components/charts/EfficiencyLineChart.tsx:25 | One more code unit is one more step `(h xor c) * 16777619 mod 2^32` |
| SeedHash.Fnv1aEmpty | src/components/charts/EfficiencyLineChart.tsx:24-26 | The empty string hashes to 2166136261 |
| SeedHash.Fnv1aOfA | src/components/charts/EfficiencyLineChart.tsx:23-27 | "a" hashes to the published 32-bit FNV-1a value 0xE40C292C |
| SeedHash.HashStr | src/components/charts/EfficiencyLineChart.tsx:23-27 | The loop computes 32-bit FNV-1a over the UTF-16 code units. The result is an unsigned 32-bit value |
| SeedHash.Unit | src/components/charts/EfficiencyLineChart.tsx:20 | An unsigned 32-bit value divided by 2^32 lies in [0, 1) |
| SeedHash.Mix | src/components/charts/EfficiencyLineChart.tsx:18-20 | A transcription of the three mixing lines on 32-bit values; it has no contract of its own, and the only property proved of it is the [0, 1) range that `Output` states after the division |
| SeedHash.Output | src/components/charts/EfficiencyLineChart.tsx:18-20 | A generator output lies in [0, 1) |
| SeedHash.Mulberry32.constructor | src/components/charts/EfficiencyLineChart.tsx:15 | The generator starts from the seed |
| SeedHash.Mulberry32.Next | src/components/charts/EfficiencyLineChart.tsx:16-21 | Each call advances the state by 0x6D2B79F5 modulo 2^32, then returns the mixed new state, which lies in [0, 1) |
| SeedHash.SeriesAt | src/components/charts/EfficiencyLineChart.tsx:16-21 | The i-th of n successive values depends only on the state i + 1 calls on |
| SeedHash.DrawsAt | src/components/charts/EfficiencyLineChart.tsx:16-21 | The i-th draw is the output of the state i + 1 calls on, and lies in [0, 1) |
| SeedHash.DrawsStep | src/components/charts/EfficiencyLineChart.tsx:16-21 | n draws are one call's output followed by n - 1 draws from the advanced state |
| SeedHash.Draws | src/components/charts/EfficiencyLineChart.tsx:55-56 | n successive `rnd()` values give n draws; `DrawsAt` and `DrawsStep` state each one |
| SeedHash.DrawMany | src/components/charts/EfficiencyLineChart.tsx:55-56 | n successive calls return exactly the n draws from the starting state |
| SeedHash.SeriesDraws | src/components/charts/EfficiencyLineChart.tsx:51-56 | The chart's draws are a function of the vehicle id alone (determinism) |

## Left out

- Rendering: every JSX component, the theme, and the chart's data series and axis domain. The chart series is left out except for the draws that feed it.
- `DraggableDashboard.tsx` is not part of this model. It delegates reordering to a drag-and-drop library.
- The telemetry simulator, `src/services/mockData.ts`, is not part of this model. It consists of timers, random physics updates and window events.
- Zustand wiring is not modelled: `set`/`get`, subscriptions, and the copying of the interface store's online flag into the fleet store. The fleet store's `online` is simply a field that `SetOnline` sets.
- Event listener registration and removal are not modelled: the handler in `useTelemetry` and the `online`/`offline` listeners. Each later event is one call of `HandleTelemetry` or `Ui.NetworkUpdate`.
- `localStorage`, `JSON.parse` and `JSON.stringify` are outside the model. Their outcomes are `Storage.Stored` values, and a write that throws is a `writeOk = false` input. The empty string stored under a key is treated as missing, as both loaders do.
- Numbers are real numbers: NaN, the infinities and IEEE rounding are not modelled. As a result, `Number(v.battery) || 0` in the overview reduces to the battery reading itself.
- Sorting compares real keys, so the comparator `b.key - a.key` cannot return NaN.
- Alert message text is kept as a template with its arguments (`Message`). The number formatting of `toFixed` and `Math.round` is not modelled.
- FleetSelectors.ToLower: lower-cases ASCII letters only; Unicode case mapping is not modelled.
- AppShell.IsSection: membership is the three section keys only. The JavaScript `in` operator would also accept inherited property names such as "toString".
- AppShell.OnDragEnd: requires the source and destination indices to lie within the displayed list. The drag library reports only such indices. An out-of-range `splice`, which would insert `undefined`, is not modelled.
- The splices in `onDragEnd` work on a fresh copy of the filtered order. They are modelled on sequence values (`RemoveAt`, `InsertAt`), so no aliasing is lost.
- Telemetry.RandomMockAlerts: the gate compares the draw with the real number 0.1, not with the nearest double to 0.1.
- The demo alert's timestamp is a separate parameter, `mockNow`, because the source reads the clock again there.
- SeedHash.Mulberry32: the generator's number, which grows on every call, is kept modulo 2^32. The bitwise operators see only those bits. The exactness of the JavaScript number beyond 2^53, after millions of calls, is not modelled.
- SeedHash: the chart's derived quantities (`seed % 1400`, the trend and noise arithmetic, `toFixed(2)`) are not modelled. They are floating-point presentation.
- FleetStore.Vehicle: `operationalStatus` is carried as an optional field. The declared type does not have it, but the overview reads it from the same objects.
- SeedHash.CodeUnits: a Dafny `char` is a Unicode scalar value, so a vehicle id cannot hold the lone surrogates a JavaScript string may contain. `charCodeAt`, and so `hashStr`, would see such a unit as it is; the model covers only well-formed strings.
