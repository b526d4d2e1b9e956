/** The fleet state store (src/stores/fleetStore.ts): the latest vehicle
    snapshot, the selected vehicle, the list-view query, the retained alerts
    and the online flag, with the actions that update them. */
module FleetStore {
  import opened Options
  import opened Seqs

  datatype Status = Moving | Charging | Idle

  /** One fleet unit as delivered by the telemetry feed. Readings are
      real numbers. `operationalStatus` is not part of the declared type;
      the overview panel reads it from the same objects when a feed
      supplies it, so it is carried here (None = absent). */
  datatype Vehicle = Vehicle(
    id: string,
    name: string,
    speed: real,
    battery: real,
    temperature: real,
    tireFL: real,
    tireFR: real,
    tireRL: real,
    tireRR: real,
    motorEfficiency: real,
    regenActive: bool,
    status: Status,
    distance: real,
    lat: real,
    lng: real,
    operationalStatus: Option<string>)

  datatype AlertKind =
    | BatteryLow | TempHigh | TirePressure | Speeding
    | Geofence | HarshBraking | ChargingComplete | Other

  datatype Severity = Info | Warning | Critical

  /** The human-readable text of an alert, kept as its template and
      arguments; number formatting is not modelled. */
  datatype Message =
    | BatteryLowText(name: string, battery: real)
    | HighTemperatureText(name: string, temperature: real)
    | TirePressureText(name: string)
    | SpeedingText(name: string, speed: real)
    | GeofenceExitText(name: string)
    | HarshBrakingText(name: string)
    | ChargingCompleteText(name: string)
    | Text(text: string)

  datatype Alert = Alert(
    id: string,
    vehicleId: string,
    kind: AlertKind,
    severity: Severity,
    message: Message,
    ts: int,
    acknowledged: Option<bool>)

  datatype StatusFilter = All | Only(status: Status)

  datatype SortKey = Battery | Speed | Distance

  /** At most this many alerts are retained. */
  const MaxAlerts: nat := 50

  // ---------------------------------------------------------------------
  // Snapshot acceptance and selection continuity

  /** JavaScript truthiness of a selection: neither null nor "". */
  predicate Truthy(sel: Option<string>) {
    sel.Some? && sel.value != ""
  }

  predicate HasVehicle(vehicles: seq<Vehicle>, id: string) {
    exists i :: 0 <= i < |vehicles| && vehicles[i].id == id
  }

  /** A batch replaces the list unless the store is offline and already
      holds vehicles (stale data is frozen while offline). */
  predicate AcceptsBatch(current: seq<Vehicle>, online: bool) {
    online || current == []
  }

  /** The selection after an accepted batch; `firstSet` says the list was
      empty before the batch. */
  function NextSelection(firstSet: bool, sel: Option<string>, incoming: seq<Vehicle>): (r: Option<string>)
    // a truthy selection always names a vehicle of the batch
    ensures Truthy(r) ==> HasVehicle(incoming, r.value)
    // a non-empty batch yields a vehicle of the batch whenever the list
    // was empty or something truthy was selected
    ensures incoming != [] && (firstSet || Truthy(sel)) ==> r.Some? && HasVehicle(incoming, r.value)
    // the first non-empty batch selects its first vehicle
    ensures firstSet && incoming != [] ==> r == Some(incoming[0].id)
    // later batches keep a selection they contain
    ensures !firstSet && Truthy(sel) && HasVehicle(incoming, sel.value) ==> r == sel
    // a selection that disappeared falls back to the first vehicle, or to none
    ensures !(firstSet && incoming != []) && Truthy(sel) && !HasVehicle(incoming, sel.value) ==>
      r == (if incoming == [] then None else Some(incoming[0].id))
    // null and "" are left alone
    ensures !(firstSet && incoming != []) && !Truthy(sel) ==> r == sel
  {
    if firstSet && |incoming| > 0 then Some(incoming[0].id)
    else if Truthy(sel) && !HasVehicle(incoming, sel.value) then
      (if |incoming| > 0 then Some(incoming[0].id) else None)
    else sel
  }

  /** Delivering the same batch again does not move the selection. */
  lemma SelectionStable(firstSet: bool, sel: Option<string>, incoming: seq<Vehicle>)
    ensures var r := NextSelection(firstSet, sel, incoming);
            NextSelection(false, r, incoming) == r
  {
  }

  // ---------------------------------------------------------------------
  // Alert retention

  /** Some alert of `s` has this id. */
  predicate HasAlertId(s: seq<Alert>, id: string) {
    exists i :: 0 <= i < |s| && s[i].id == id
  }

  predicate DistinctIds(s: seq<Alert>) {
    forall i, j :: 0 <= i < j < |s| ==> s[i].id != s[j].id
  }

  /** What the store promises of its alert list: capped and free of duplicate ids. */
  predicate AlertListValid(s: seq<Alert>) {
    |s| <= MaxAlerts && DistinctIds(s)
  }

  /** The head's id does not occur again in a list with distinct ids. */
  lemma HeadIdUnique(s: seq<Alert>)
    requires s != [] && DistinctIds(s)
    ensures !HasAlertId(s[1..], s[0].id)
  {
    forall k | 0 <= k < |s[1..]| ensures s[1..][k].id != s[0].id {
      assert s[1..][k] == s[k + 1];
    }
  }

  /** The alerts of `s` whose id has not been seen before, scanning front
      to back: the first occurrence of every id not in `seen` is kept. */
  function FirstOccurrences(s: seq<Alert>, seen: set<string>): (r: seq<Alert>)
    ensures |r| <= |s|
    decreases |s|
  {
    if s == [] then []
    else if s[0].id in seen then FirstOccurrences(s[1..], seen)
    else [s[0]] + FirstOccurrences(s[1..], seen + {s[0].id})
  }

  /** What `FirstOccurrences` keeps: alerts of `s` with unseen ids, each id once. */
  lemma {:induction false} FirstOccurrencesFacts(s: seq<Alert>, seen: set<string>)
    ensures forall a :: a in FirstOccurrences(s, seen) ==> a in s && a.id !in seen
    ensures DistinctIds(FirstOccurrences(s, seen))
    // the first occurrence of every id outside `seen` is kept
    ensures forall i :: 0 <= i < |s| && s[i].id !in seen && FirstWithId(s, i) ==>
              s[i] in FirstOccurrences(s, seen)
    decreases |s|
  {
    if s != [] {
      assert forall a :: a in s[1..] ==> a in s;
      var seen' := if s[0].id in seen then seen else seen + {s[0].id};
      FirstOccurrencesFacts(s[1..], seen');
      if s[0].id !in seen {
        DistinctPrepend(s[0], FirstOccurrences(s[1..], seen'));
      }
      forall i | 0 < i < |s| && s[i].id !in seen && FirstWithId(s, i)
        ensures s[i] in FirstOccurrences(s, seen)
      {
        assert s[i] == s[1..][i - 1] && s[0].id != s[i].id;
        assert FirstWithId(s[1..], i - 1);
      }
    }
  }

  /** No alert before position `i` of `s` has the id of `s[i]`. */
  predicate FirstWithId(s: seq<Alert>, i: int)
    requires 0 <= i < |s|
  {
    forall j :: 0 <= j < i ==> s[j].id != s[i].id
  }

  /** The filters used on alert lists: "id differs from `id`" and "id not in `seen`". */
  function IdOtherThan(id: string): Alert -> bool {
    (a: Alert) => a.id != id
  }

  function IdNotIn(seen: set<string>): Alert -> bool {
    (a: Alert) => a.id !in seen
  }

  /** Unfolding FirstOccurrences on a list built by prepending. */
  lemma FirstOccurrencesPrepend(x: Alert, s: seq<Alert>)
    ensures FirstOccurrences([x] + s, {}) == [x] + FirstOccurrences(s, {x.id})
  {
    var t := [x] + s;
    assert t[0] == x && t[1..] == s;
    assert {} + {x.id} == {x.id};
  }

  /** The alerts of `s` without those whose id is `id` (acknowledgement). */
  function WithoutId(s: seq<Alert>, id: string): (r: seq<Alert>)
    ensures forall a :: a in r <==> a in s && a.id != id
    ensures !HasAlertId(s, id) ==> r == s
    ensures DistinctIds(s) ==> DistinctIds(r)
  {
    var r := Filter(s, IdOtherThan(id));
    if !HasAlertId(s, id) then
      assert forall a :: a in s ==> a.id != id by {
        forall a | a in s ensures a.id != id {
          var k :| 0 <= k < |s| && s[k] == a;
        }
      }
      FilterKeepsAll(s, IdOtherThan(id));
      r
    else if DistinctIds(s) then
      FilterKeepsDistinct(s, IdOtherThan(id));
      r
    else
      r
  }

  /** Filtering keeps ids distinct. */
  lemma {:induction false} FilterKeepsDistinct(s: seq<Alert>, p: Alert -> bool)
    requires DistinctIds(s)
    ensures DistinctIds(Filter(s, p))
  {
    if s != [] {
      var rest := Filter(s[1..], p);
      FilterKeepsDistinct(s[1..], p);
      FilterCons(s[0], s[1..], p);
      assert s == [s[0]] + s[1..];
      if p(s[0]) {
        HeadIdUnique(s);
        forall a | a in rest ensures a.id != s[0].id {
          var k :| 0 <= k < |s[1..]| && s[1..][k] == a;
        }
        DistinctPrepend(s[0], rest);
      }
    }
  }

  /** Prepending an alert whose id is new keeps ids distinct. */
  lemma DistinctPrepend(a: Alert, rest: seq<Alert>)
    requires DistinctIds(rest) && forall b :: b in rest ==> b.id != a.id
    ensures DistinctIds([a] + rest)
  {
    var r := [a] + rest;
    forall i, j | 0 <= i < j < |r| ensures r[i].id != r[j].id {
      assert r[j] == rest[j - 1];
      if i > 0 {
        assert r[i] == rest[i - 1];
      }
    }
  }

  /** On a list with distinct ids, keeping first occurrences only drops the
      alerts whose id was already seen. */
  lemma {:induction false} FirstOccurrencesOfDistinct(s: seq<Alert>, seen: set<string>)
    requires DistinctIds(s)
    ensures FirstOccurrences(s, seen) == Filter(s, IdNotIn(seen))
  {
    if s != [] {
      var seen' := if s[0].id in seen then seen else seen + {s[0].id};
      FirstOccurrencesOfDistinct(s[1..], seen');
      HeadIdUnique(s);
      forall a | a in s[1..] ensures a.id != s[0].id {
        var k :| 0 <= k < |s[1..]| && s[1..][k] == a;
      }
      FilterAgree(s[1..], IdNotIn(seen'), IdNotIn(seen));
    }
  }

  /** The alert list after `pushAlert(a)` while online: prepend, keep the
      first occurrence of every id, cap at MaxAlerts. */
  function AlertsAfterPush(alerts: seq<Alert>, a: Alert): (r: seq<Alert>)
    ensures AlertListValid(r)
    ensures |r| >= 1 && r[0] == a
    ensures r[1..] == Take(FirstOccurrences(alerts, {a.id}), MaxAlerts - 1)
    ensures forall b :: b in r ==> b == a || (b in alerts && b.id != a.id)
  {
    var next := [a] + alerts;
    assert next[1..] == alerts;
    var all := FirstOccurrences(next, {});
    FirstOccurrencesPrepend(a, alerts);
    FirstOccurrencesFacts(next, {});
    FirstOccurrencesFacts(alerts, {a.id});
    var r := Take(all, MaxAlerts);
    assert r[1..] == Take(all[1..], MaxAlerts - 1);
    assert forall b :: b in r ==> b in all;
    assert forall i :: 0 <= i < |r| ==> r[i] == all[i];
    r
  }

  /** When the stored list already has distinct ids, a push is "acknowledge
      any older alert with the same id, prepend, cap". */
  lemma PushReplacesSameId(alerts: seq<Alert>, a: Alert)
    requires DistinctIds(alerts)
    ensures AlertsAfterPush(alerts, a) == Take([a] + WithoutId(alerts, a.id), MaxAlerts)
  {
    FirstOccurrencesOfDistinct(alerts, {a.id});
    FilterAgree(alerts, IdNotIn({a.id}), IdOtherThan(a.id));
    FirstOccurrencesPrepend(a, alerts);
  }

  /** The alert list after pushing `xs` one by one, front to back. */
  function AlertsAfterPushes(alerts: seq<Alert>, online: bool, xs: seq<Alert>): (r: seq<Alert>)
    ensures !online ==> r == alerts
    ensures online && xs != [] ==> AlertListValid(r)
  {
    if xs == [] then alerts
    else
      var before := AlertsAfterPushes(alerts, online, xs[..|xs| - 1]);
      if online then AlertsAfterPush(before, xs[|xs| - 1]) else before
  }

  /** Pushing one more alert continues from the list the earlier pushes left. */
  lemma AlertsAfterPushesSnoc(alerts: seq<Alert>, online: bool, xs: seq<Alert>, x: Alert)
    ensures AlertsAfterPushes(alerts, online, xs + [x]) ==
            if online then AlertsAfterPush(AlertsAfterPushes(alerts, online, xs), x)
            else AlertsAfterPushes(alerts, online, xs)
  {
    assert (xs + [x])[..|xs|] == xs;
  }

  lemma AlertsAfterPushUnfold(alerts: seq<Alert>, a: Alert)
    ensures AlertsAfterPush(alerts, a) == Take(FirstOccurrences([a] + alerts, {}), MaxAlerts)
  {
  }

  /** One step of the scan behind `FirstOccurrences`, at position `i`. */
  lemma FirstOccurrencesStep(s: seq<Alert>, i: nat, seen: set<string>)
    requires i < |s|
    ensures FirstOccurrences(s[i..], seen) ==
            if s[i].id in seen then FirstOccurrences(s[i + 1..], seen)
            else [s[i]] + FirstOccurrences(s[i + 1..], seen + {s[i].id})
  {
    assert s[i..][0] == s[i] && s[i..][1..] == s[i + 1..];
  }

  /** Capping `p + t` at `n` gives `p` when `p` has length `n` or `t` is empty. */
  lemma TakeOfPrefix(p: seq<Alert>, t: seq<Alert>, n: nat)
    requires |p| == n || (t == [] && |p| <= n)
    ensures Take(p + t, n) == p
  {
    if |p| == n {
      assert (p + t)[..n] == p;
    } else {
      assert p + t == p;
    }
  }

  /** No alert of `s` shares an id with an alert of `t`. */
  predicate DisjointIds(s: seq<Alert>, t: seq<Alert>) {
    forall i, j :: 0 <= i < |s| && 0 <= j < |t| ==> s[i].id != t[j].id
  }

  /** Newest-first history followed by the old list has distinct ids. */
  lemma ReversedFreshDistinct(alerts: seq<Alert>, xs: seq<Alert>)
    requires DistinctIds(alerts) && DistinctIds(xs) && DisjointIds(xs, alerts)
    ensures DistinctIds(Reverse(xs) + alerts)
  {
    var rx := Reverse(xs);
    var all := rx + alerts;
    forall i, j | 0 <= i < j < |all| ensures all[i].id != all[j].id {
      if j < |rx| {
        assert all[i] == xs[|xs| - 1 - i] && all[j] == xs[|xs| - 1 - j];
      } else if i < |rx| {
        assert all[i] == xs[|xs| - 1 - i] && all[j] == alerts[j - |rx|];
      } else {
        assert all[i] == alerts[i - |rx|] && all[j] == alerts[j - |rx|];
      }
    }
  }

  /** Reversal puts the last element first. */
  lemma ReverseLast(xs: seq<Alert>)
    requires xs != []
    ensures forall alerts :: Reverse(xs) + alerts == [xs[|xs| - 1]] + (Reverse(xs[..|xs| - 1]) + alerts)
  {
  }

  /** In a list with distinct ids, a prefix of the tail has distinct ids and
      does not contain the head's id. */
  lemma CappedTailFresh(x: Alert, s: seq<Alert>, n: nat)
    requires DistinctIds([x] + s)
    ensures DistinctIds(Take(s, n)) && !HasAlertId(Take(s, n), x.id)
  {
    var t := [x] + s;
    var c := Take(s, n);
    assert forall k :: 0 <= k < |c| ==> c[k] == t[k + 1];
    forall i, j | 0 <= i < j < |c| ensures c[i].id != c[j].id {
      assert c[i] == t[i + 1] && c[j] == t[j + 1];
    }
    forall k | 0 <= k < |c| ensures c[k].id != x.id {
      assert c[k] == t[k + 1] && x == t[0];
    }
  }

  /** Pushing alerts whose ids are new and distinct while online keeps the
      most recent MaxAlerts of them, newest first, ahead of the old ones. */
  lemma {:induction false} PushesOfFreshIds(alerts: seq<Alert>, xs: seq<Alert>)
    requires AlertListValid(alerts)
    requires DistinctIds(xs)
    requires DisjointIds(xs, alerts)
    ensures AlertsAfterPushes(alerts, true, xs) == Take(Reverse(xs) + alerts, MaxAlerts)
  {
    if xs == [] {
      assert Reverse(xs) + alerts == alerts;
    } else {
      var n := |xs|;
      var init := xs[..n - 1];
      var x := xs[n - 1];
      var all := Reverse(init) + alerts;
      var before := Take(all, MaxAlerts);
      assert DistinctIds(before) && !HasAlertId(before, x.id) by {
        ReversedFreshDistinct(alerts, xs);
        ReverseLast(xs);
        CappedTailFresh(x, all, MaxAlerts);
      }
      calc {
        AlertsAfterPushes(alerts, true, xs);
        { assert DistinctIds(init) && DisjointIds(init, alerts) by {
            assert forall k :: 0 <= k < |init| ==> init[k] == xs[k];
          }
          PushesOfFreshIds(alerts, init); }
        AlertsAfterPush(before, x);
        { PushReplacesSameId(before, x); }
        Take([x] + WithoutId(before, x.id), MaxAlerts);
        Take([x] + before, MaxAlerts);
        { TakePrependTake(x, all, MaxAlerts); }
        Take([x] + all, MaxAlerts);
        { ReverseLast(xs); }
        Take(Reverse(xs) + alerts, MaxAlerts);
      }
    }
  }

  // ---------------------------------------------------------------------
  // The store

  /** The scan inside `pushAlert`: walks `next` front to back, skips an
      alert whose id was already seen, and stops once MaxAlerts are kept. */
  method KeepFirstCapped(next: seq<Alert>) returns (deduped: seq<Alert>)
    ensures deduped == Take(FirstOccurrences(next, {}), MaxAlerts)
  {
    ghost var all := FirstOccurrences(next, {});
    var seen: set<string> := {};
    deduped := [];
    var i := 0;
    while i < |next|
      invariant 0 <= i <= |next|
      invariant |deduped| < MaxAlerts
      invariant deduped + FirstOccurrences(next[i..], seen) == all
    {
      var alert := next[i];
      FirstOccurrencesStep(next, i, seen);
      i := i + 1;
      if alert.id in seen {
        continue;
      }
      ghost var rest := FirstOccurrences(next[i..], seen + {alert.id});
      Assoc(deduped, [alert], rest);
      seen := seen + {alert.id};
      deduped := deduped + [alert];
      if |deduped| >= MaxAlerts {
        TakeOfPrefix(deduped, rest, MaxAlerts);
        return;
      }
    }
    assert next[i..] == [];
    TakeOfPrefix(deduped, [], MaxAlerts);
  }

  class Fleet {
    var vehicles: seq<Vehicle>
    var selectedVehicleId: Option<string>
    var search: string
    var filterStatus: StatusFilter
    var sortBy: Option<SortKey>
    var alerts: seq<Alert>
    var online: bool

    /** The alert list keeps the retention promise. */
    ghost predicate Valid()
      reads this
    {
      AlertListValid(alerts)
    }

    /** The store's initial state. */
    constructor ()
      ensures vehicles == [] && selectedVehicleId == None
      ensures search == "" && filterStatus == All && sortBy == None
      ensures alerts == [] && online
      ensures Valid()
    {
      vehicles := [];
      selectedVehicleId := None;
      search := "";
      filterStatus := All;
      sortBy := None;
      alerts := [];
      online := true;
    }

    method SetOnline(value: bool)
      modifies this
      ensures online == value
      ensures vehicles == old(vehicles) && selectedVehicleId == old(selectedVehicleId)
      ensures search == old(search) && filterStatus == old(filterStatus) && sortBy == old(sortBy)
      ensures alerts == old(alerts)
    {
      online := value;
    }

    /** Replaces the vehicle list with `incoming`, unless offline with
        vehicles already present; keeps the selection pointing into the batch. */
    method SetVehicles(incoming: seq<Vehicle>)
      modifies this
      ensures AcceptsBatch(old(vehicles), old(online)) ==>
        vehicles == incoming &&
        selectedVehicleId == NextSelection(old(vehicles) == [], old(selectedVehicleId), incoming)
      ensures !AcceptsBatch(old(vehicles), old(online)) ==>
        vehicles == old(vehicles) && selectedVehicleId == old(selectedVehicleId)
      ensures search == old(search) && filterStatus == old(filterStatus) && sortBy == old(sortBy)
      ensures alerts == old(alerts) && online == old(online)
    {
      var isFirstSet := |vehicles| == 0;
      if !online && !isFirstSet {
        return;
      }
      vehicles := incoming;
      if isFirstSet && |incoming| > 0 {
        selectedVehicleId := Some(incoming[0].id);
      } else {
        var sel := selectedVehicleId;
        if Truthy(sel) && !HasVehicle(incoming, sel.value) {
          selectedVehicleId := if |incoming| > 0 then Some(incoming[0].id) else None;
        }
      }
    }

    /** Selects `id` without checking that such a vehicle exists. */
    method SelectVehicle(id: string)
      modifies this
      ensures selectedVehicleId == Some(id)
      ensures vehicles == old(vehicles)
      ensures search == old(search) && filterStatus == old(filterStatus) && sortBy == old(sortBy)
      ensures alerts == old(alerts) && online == old(online)
    {
      selectedVehicleId := Some(id);
    }

    method SetSearch(q: string)
      modifies this
      ensures search == q
      ensures vehicles == old(vehicles) && selectedVehicleId == old(selectedVehicleId)
      ensures filterStatus == old(filterStatus) && sortBy == old(sortBy)
      ensures alerts == old(alerts) && online == old(online)
    {
      search := q;
    }

    method SetFilterStatus(f: StatusFilter)
      modifies this
      ensures filterStatus == f
      ensures vehicles == old(vehicles) && selectedVehicleId == old(selectedVehicleId)
      ensures search == old(search) && sortBy == old(sortBy)
      ensures alerts == old(alerts) && online == old(online)
    {
      filterStatus := f;
    }

    method SetSortBy(key: Option<SortKey>)
      modifies this
      ensures sortBy == key
      ensures vehicles == old(vehicles) && selectedVehicleId == old(selectedVehicleId)
      ensures search == old(search) && filterStatus == old(filterStatus)
      ensures alerts == old(alerts) && online == old(online)
    {
      sortBy := key;
    }

    /** Rejected while offline; otherwise prepends `a`, drops later
        duplicates of any id and stops at MaxAlerts. */
    method PushAlert(a: Alert)
      modifies this
      ensures alerts == if old(online) then AlertsAfterPush(old(alerts), a) else old(alerts)
      ensures old(online) ==> Valid()
      ensures vehicles == old(vehicles) && selectedVehicleId == old(selectedVehicleId)
      ensures search == old(search) && filterStatus == old(filterStatus) && sortBy == old(sortBy)
      ensures online == old(online)
    {
      if !online {
        return;
      }
      var next := [a] + alerts;
      var deduped := KeepFirstCapped(next);
      AlertsAfterPushUnfold(alerts, a);
      alerts := deduped;
    }

    /** Removes every alert with this id; an unknown id changes nothing. */
    method AckAlert(id: string)
      modifies this
      ensures alerts == WithoutId(old(alerts), id)
      ensures old(Valid()) ==> Valid()
      ensures vehicles == old(vehicles) && selectedVehicleId == old(selectedVehicleId)
      ensures search == old(search) && filterStatus == old(filterStatus) && sortBy == old(sortBy)
      ensures online == old(online)
    {
      alerts := Filter(alerts, IdOtherThan(id));
    }

    /** Clears the alert list, online or not. */
    method AckAll()
      modifies this
      ensures alerts == []
      ensures Valid()
      ensures vehicles == old(vehicles) && selectedVehicleId == old(selectedVehicleId)
      ensures search == old(search) && filterStatus == old(filterStatus) && sortBy == old(sortBy)
      ensures online == old(online)
    {
      alerts := [];
    }
  }

}
