/** The telemetry ingestion path (src/hooks/useTelemetry.ts): the threshold
    rule engine that turns a vehicle snapshot into alerts, the occasional
    demo alert, and the event handler that feeds both into the fleet store.
    `Date.now()` and `Math.random()` are parameters. */
module Telemetry {
  import opened Options
  import opened Seqs
  import opened FleetStore

  // ---------------------------------------------------------------------
  // Alert ids: `${now}-${vehicleId}-${tag}`

  function DigitChar(d: nat): char
    requires d < 10
  {
    ('0' as int + d) as char
  }

  /** The decimal rendering of a millisecond timestamp. */
  function NatToString(n: nat): (r: string)
    ensures r != []
    ensures forall i :: 0 <= i < |r| ==> '0' <= r[i] <= '9'
    ensures n < 10 <==> |r| == 1
  {
    if n < 10 then [DigitChar(n)] else NatToString(n / 10) + [DigitChar(n % 10)]
  }

  /** The last part of an alert id. The threshold rules use short tags; the
      demo alerts reuse their alert type. */
  function Tag(k: AlertKind): (r: string)
    ensures |r| >= 2
    // no hyphen: the part of an id after its last hyphen is the tag
    ensures forall i :: 0 <= i < |r| ==> r[i] != '-'
  {
    match k
    case BatteryLow => "battery"
    case TempHigh => "temp"
    case TirePressure => "tire"
    case Speeding => "speed"
    case Geofence => "geofence"
    case HarshBraking => "harsh_braking"
    case ChargingComplete => "charging_complete"
    case Other => "other"
  }

  /** An alert id: the time, the vehicle id and the tag, joined by hyphens. */
  function AlertId(now: nat, vehicleId: string, k: AlertKind): string {
    NatToString(now) + "-" + vehicleId + "-" + Tag(k)
  }

  /** An id opens with the decimal time and a hyphen and closes with a
      hyphen and the tag. */
  lemma AlertIdShape(now: nat, vehicleId: string, k: AlertKind)
    ensures var r, d, t := AlertId(now, vehicleId, k), NatToString(now), Tag(k);
      |r| > |d| && r[..|d|] == d && r[|d|] == '-' &&
      |r| > |t| && r[|r| - |t|..] == t && r[|r| - |t| - 1] == '-'
  {
  }

  /** The last two characters of a tag. */
  function TagEnd(k: AlertKind): string {
    Tag(k)[|Tag(k)| - 2..]
  }

  /** The kind whose tag ends in the characters `a` then `b`. */
  function KindOfTagEnd(a: char, b: char): Option<AlertKind> {
    if b == 'y' then Some(BatteryLow)
    else if b == 'p' then Some(TempHigh)
    else if b == 'd' then Some(Speeding)
    else if b == 'g' then Some(HarshBraking)
    else if b == 'r' then Some(Other)
    else if b != 'e' then None
    else if a == 'r' then Some(TirePressure)
    else if a == 'c' then Some(Geofence)
    else if a == 't' then Some(ChargingComplete)
    else None
  }

  /** A tag's ending identifies its kind. */
  lemma TagEndKind(k: AlertKind)
    ensures |TagEnd(k)| == 2 && KindOfTagEnd(TagEnd(k)[0], TagEnd(k)[1]) == Some(k)
  {
  }

  /** No two tags end in the same two characters. */
  lemma TagEndsDistinct(k1: AlertKind, k2: AlertKind)
    requires TagEnd(k1) == TagEnd(k2)
    ensures k1 == k2
  {
    TagEndKind(k1);
    TagEndKind(k2);
  }

  /** Two equal ids have the same tag, whatever their timestamps; with the
      same timestamp they also have the same vehicle. */
  lemma AlertIdInjective(n1: nat, v1: string, k1: AlertKind, n2: nat, v2: string, k2: AlertKind)
    requires AlertId(n1, v1, k1) == AlertId(n2, v2, k2)
    ensures k1 == k2
    ensures n1 == n2 ==> v1 == v2
  {
    IdPartsInjective(NatToString(n1), v1, k1, NatToString(n2), v2, k2);
  }

  /** The parts of `prefix-vehicle-tag` are recovered from the end. */
  lemma IdPartsInjective(p1: string, v1: string, k1: AlertKind, p2: string, v2: string, k2: AlertKind)
    requires p1 + "-" + v1 + "-" + Tag(k1) == p2 + "-" + v2 + "-" + Tag(k2)
    ensures k1 == k2
    ensures p1 == p2 ==> v1 == v2
  {
    var x1 := p1 + "-" + v1 + "-";
    var x2 := p2 + "-" + v2 + "-";
    SameTag(x1, k1, x2, k2);
    ConcatCancelRight(x1, x2, Tag(k1));
    if p1 == p2 {
      SameVehicle(p1, v1, v2);
    }
  }

  /** Equal strings that end in tags end in the same tag. */
  lemma SameTag(x1: string, k1: AlertKind, x2: string, k2: AlertKind)
    requires x1 + Tag(k1) == x2 + Tag(k2)
    ensures k1 == k2
  {
    SameTagEnd(x1, k1, x2, k2);
    TagEndsDistinct(k1, k2);
  }

  lemma SameTagEnd(x1: string, k1: AlertKind, x2: string, k2: AlertKind)
    requires x1 + Tag(k1) == x2 + Tag(k2)
    ensures TagEnd(k1) == TagEnd(k2)
  {
    var t1, t2 := Tag(k1), Tag(k2);
    SameSuffix(x1, t1, x2, t2, 2);
  }

  /** `p-v1-` and `p-v2-` agree only when `v1` and `v2` do. */
  lemma SameVehicle(p: string, v1: string, v2: string)
    requires p + "-" + v1 + "-" == p + "-" + v2 + "-"
    ensures v1 == v2
  {
    var q := p + "-";
    assert q + v1 + "-" == q + (v1 + "-") && q + v2 + "-" == q + (v2 + "-");
    ConcatCancelLeft(q, v1 + "-", v2 + "-");
    ConcatCancelRight(v1, v2, "-");
  }

  lemma SameSuffix(x1: string, t1: string, x2: string, t2: string, m: nat)
    requires x1 + t1 == x2 + t2 && m <= |t1| && m <= |t2|
    ensures t1[|t1| - m..] == t2[|t2| - m..]
  {
    var id := x1 + t1;
    assert id[|id| - m..] == t1[|t1| - m..];
    assert id[|id| - m..] == t2[|t2| - m..];
  }

  lemma ConcatCancelRight(x1: string, x2: string, t: string)
    requires x1 + t == x2 + t
    ensures x1 == x2
  {
    assert x1 == (x1 + t)[..|x1|];
  }

  lemma ConcatCancelLeft(p: string, a: string, b: string)
    requires p + a == p + b
    ensures a == b
  {
    assert a == (p + a)[|p|..];
  }

  // ---------------------------------------------------------------------
  // The alerts one rule raises

  /** The severity a rule's alert carries. */
  function SeverityFor(v: Vehicle, k: AlertKind): (r: Severity)
    // critical for overheating and for a battery below 10 %
    ensures r == Critical <==> k == TempHigh || (k == BatteryLow && v.battery < 10.0)
    ensures r == Info <==> k == ChargingComplete
  {
    match k
    case BatteryLow => if v.battery < 10.0 then Critical else Warning
    case TempHigh => Critical
    case ChargingComplete => Info
    case _ => Warning
  }

  function MessageFor(v: Vehicle, k: AlertKind): Message {
    match k
    case BatteryLow => BatteryLowText(v.name, v.battery)
    case TempHigh => HighTemperatureText(v.name, v.temperature)
    case TirePressure => TirePressureText(v.name)
    case Speeding => SpeedingText(v.name, v.speed)
    case Geofence => GeofenceExitText(v.name)
    case HarshBraking => HarshBrakingText(v.name)
    case ChargingComplete => ChargingCompleteText(v.name)
    case Other => Text([])
  }

  /** The alert of kind `k` raised for `v` at time `now`. */
  function RuleAlert(v: Vehicle, now: nat, k: AlertKind): (r: Alert)
    // a fresh, unacknowledged alert about `v` stamped `now`
    ensures r.vehicleId == v.id && r.kind == k && r.ts == now && r.acknowledged == None
    ensures r.severity == SeverityFor(v, k)
    // its id is the template applied to its own time, vehicle and kind
    ensures r.id == AlertId(r.ts, r.vehicleId, r.kind)
  {
    Alert(AlertId(now, v.id, k), v.id, k, SeverityFor(v, k), MessageFor(v, k), now, None)
  }

  /** A tyre pressure outside [30, 38]. */
  predicate TireOut(t: real) {
    t < 30.0 || t > 38.0
  }

  function Tires(v: Vehicle): seq<real> {
    [v.tireFL, v.tireFR, v.tireRL, v.tireRR]
  }

  /** `tires.some(t => t < 30 || t > 38)`. */
  predicate SomeTireOut(v: Vehicle) {
    exists t :: t in Tires(v) && TireOut(t)
  }

  /** The position of a threshold rule in the order the rules run. */
  function Rank(k: AlertKind): nat {
    match k
    case BatteryLow => 0
    case TempHigh => 1
    case TirePressure => 2
    case Speeding => 3
    case _ => 4
  }

  /** The rule table: when each threshold rule fires. */
  predicate Fires(v: Vehicle, k: AlertKind)
    // only the four threshold kinds have a rule
    ensures Fires(v, k) ==> Rank(k) < 4
  {
    match k
    case BatteryLow => v.battery < 20.0
    case TempHigh => v.temperature > 60.0
    case TirePressure => SomeTireOut(v)
    case Speeding => v.speed > 110.0
    case _ => false
  }

  /** What one rule pushes for `v`: its alert, or nothing. */
  function Rule(v: Vehicle, now: nat, k: AlertKind): (r: seq<Alert>)
    ensures |r| <= 1
    ensures r != [] <==> Fires(v, k)
    ensures forall a :: a in r ==> a == RuleAlert(v, now, k)
  {
    if Fires(v, k) then [RuleAlert(v, now, k)] else []
  }

  predicate HasKind(r: seq<Alert>, k: AlertKind) {
    exists i :: 0 <= i < |r| && r[i].kind == k
  }

  lemma HasKindAppend(a: seq<Alert>, b: seq<Alert>, k: AlertKind)
    ensures HasKind(a + b, k) <==> HasKind(a, k) || HasKind(b, k)
  {
    if HasKind(a + b, k) {
      var i :| 0 <= i < |a + b| && (a + b)[i].kind == k;
      if i >= |a| {
        assert b[i - |a|].kind == k;
      }
    }
    if HasKind(a, k) {
      var i :| 0 <= i < |a| && a[i].kind == k;
      assert (a + b)[i].kind == k;
    }
    if HasKind(b, k) {
      var i :| 0 <= i < |b| && b[i].kind == k;
      assert (a + b)[|a| + i].kind == k;
    }
  }

  /** A rule's output holds its own kind exactly when the rule fires. */
  lemma HasKindRule(v: Vehicle, now: nat, r: AlertKind, k: AlertKind)
    ensures HasKind(Rule(v, now, r), k) <==> Fires(v, r) && r == k
  {
    if Fires(v, r) && r == k {
      assert Rule(v, now, r)[0].kind == k;
    }
  }

  /** The threshold alerts of one vehicle: battery, temperature, tyres and
      speed, each at most once, in that order. */
  function VehicleAlerts(v: Vehicle, now: nat): (r: seq<Alert>)
    ensures |r| <= 4
  {
    Rule(v, now, BatteryLow) + Rule(v, now, TempHigh) + Rule(v, now, TirePressure) + Rule(v, now, Speeding)
  }

  /** Each rule fires on its threshold, strictly: a battery under 20, a
      temperature over 60, a tyre outside [30, 38], a speed over 110. No
      other kind is raised. */
  lemma {:induction false} VehicleRulesFire(v: Vehicle, now: nat, k: AlertKind)
    ensures HasKind(VehicleAlerts(v, now), k) <==>
              match k
              case BatteryLow => v.battery < 20.0
              case TempHigh => v.temperature > 60.0
              case TirePressure =>
                v.tireFL < 30.0 || v.tireFL > 38.0 || v.tireFR < 30.0 || v.tireFR > 38.0 ||
                v.tireRL < 30.0 || v.tireRL > 38.0 || v.tireRR < 30.0 || v.tireRR > 38.0
              case Speeding => v.speed > 110.0
              case _ => false
  {
    var b, t, p, s := Rule(v, now, BatteryLow), Rule(v, now, TempHigh), Rule(v, now, TirePressure), Rule(v, now, Speeding);
    HasKindAppend(b + t + p, s, k);
    HasKindAppend(b + t, p, k);
    HasKindAppend(b, t, k);
    HasKindRule(v, now, BatteryLow, k);
    HasKindRule(v, now, TempHigh, k);
    HasKindRule(v, now, TirePressure, k);
    HasKindRule(v, now, Speeding, k);
    assert SomeTireOut(v) <==> TireOut(v.tireFL) || TireOut(v.tireFR) || TireOut(v.tireRL) || TireOut(v.tireRR) by {
      assert Tires(v)[0] == v.tireFL && Tires(v)[1] == v.tireFR;
      assert Tires(v)[2] == v.tireRL && Tires(v)[3] == v.tireRR;
    }
  }

  /** Kinds strictly increasing in rule order. */
  predicate Ranked(r: seq<Alert>) {
    forall i, j :: 0 <= i < j < |r| ==> Rank(r[i].kind) < Rank(r[j].kind)
  }

  /** Appending at most one alert of a kind ranked after every earlier
      alert keeps the order. */
  lemma RankedAppend(r: seq<Alert>, x: seq<Alert>, k: AlertKind)
    requires Ranked(r) && forall a :: a in r ==> Rank(a.kind) < Rank(k)
    requires |x| <= 1 && forall a :: a in x ==> a.kind == k
    ensures Ranked(r + x)
    ensures forall a :: a in r + x ==> Rank(a.kind) <= Rank(k)
  {
    var t := r + x;
    forall i, j | 0 <= i < j < |t| ensures Rank(t[i].kind) < Rank(t[j].kind) {
      if j >= |r| {
        assert t[j] in x && t[i] == r[i] && r[i] in r;
      }
    }
  }

  /** A rule raises at most one alert, of its own kind. */
  lemma RuleOfKind(v: Vehicle, now: nat, k: AlertKind)
    ensures |Rule(v, now, k)| <= 1 && forall a :: a in Rule(v, now, k) ==> a.kind == k
  {
  }

  /** Every alert of one vehicle is that vehicle's rule alert for its kind
      (vehicle id, timestamp `now`, id `now-id-tag`), the kinds come in
      rule order without repetition, and the severity is critical exactly
      for a high temperature or a battery under 10. */
  lemma VehicleAlertsShape(v: Vehicle, now: nat)
    ensures var r := VehicleAlerts(v, now);
            && (forall a :: a in r ==> a == RuleAlert(v, now, a.kind) && Rank(a.kind) < 4)
            && Ranked(r)
            && (forall a :: a in r ==>
                  (a.severity == Critical <==> a.kind == TempHigh || (a.kind == BatteryLow && v.battery < 10.0)))
  {
    var r := VehicleAlerts(v, now);
    VehicleAlertsMembers(v, now);
    VehicleAlertsRanked(v, now);
    forall a | a in r
      ensures a.severity == Critical <==> a.kind == TempHigh || (a.kind == BatteryLow && v.battery < 10.0)
    {
      RuleAlertSeverity(v, now, a.kind);
    }
  }

  /** Every alert of one vehicle is the rule alert of its own kind. */
  lemma VehicleAlertsMembers(v: Vehicle, now: nat)
    ensures forall a :: a in VehicleAlerts(v, now) ==> a == RuleAlert(v, now, a.kind) && Rank(a.kind) < 4
  {
    var b, t, p, s := Rule(v, now, BatteryLow), Rule(v, now, TempHigh), Rule(v, now, TirePressure), Rule(v, now, Speeding);
    var r := b + t + p + s;
    forall a: Alert | a in r ensures a == RuleAlert(v, now, a.kind) && Rank(a.kind) < 4 {
      assert a in b || a in t || a in p || a in s;
    }
  }

  /** The alerts of one vehicle come in rule order. */
  lemma VehicleAlertsRanked(v: Vehicle, now: nat)
    ensures Ranked(VehicleAlerts(v, now))
  {
    var x1, x2, x3, x4 := Rule(v, now, BatteryLow), Rule(v, now, TempHigh), Rule(v, now, TirePressure), Rule(v, now, Speeding);
    RuleOfKind(v, now, BatteryLow);
    RuleOfKind(v, now, TempHigh);
    RuleOfKind(v, now, TirePressure);
    RuleOfKind(v, now, Speeding);
    RankedChain(x1, x2, x3, x4);
  }

  /** Four single-kind pieces in rule order concatenate to a ranked list. */
  lemma RankedChain(x1: seq<Alert>, x2: seq<Alert>, x3: seq<Alert>, x4: seq<Alert>)
    requires |x1| <= 1 && forall a :: a in x1 ==> a.kind == BatteryLow
    requires |x2| <= 1 && forall a :: a in x2 ==> a.kind == TempHigh
    requires |x3| <= 1 && forall a :: a in x3 ==> a.kind == TirePressure
    requires |x4| <= 1 && forall a :: a in x4 ==> a.kind == Speeding
    ensures Ranked(x1 + x2 + x3 + x4)
  {
    RankedAppend([], x1, BatteryLow);
    assert [] + x1 == x1;
    RankedAppend(x1, x2, TempHigh);
    RankedAppend(x1 + x2, x3, TirePressure);
    RankedAppend(x1 + x2 + x3, x4, Speeding);
  }

  /** Only a temperature alert, or a battery alert under 10 %, is critical. */
  lemma RuleAlertSeverity(v: Vehicle, now: nat, k: AlertKind)
    ensures RuleAlert(v, now, k).severity == Critical <==> k == TempHigh || (k == BatteryLow && v.battery < 10.0)
  {
  }

  function AlertsAt(now: nat): Vehicle -> seq<Alert> {
    v => VehicleAlerts(v, now)
  }

  /** The threshold alerts of a snapshot: each vehicle's alerts, vehicle by
      vehicle in snapshot order. */
  function BatchAlerts(s: seq<Vehicle>, now: nat): (r: seq<Alert>)
    ensures |r| <= 4 * |s|
  {
    if s == [] then [] else BatchAlerts(s[..|s| - 1], now) + VehicleAlerts(s[|s| - 1], now)
  }

  lemma {:induction false} BatchAlertsIsFlatMap(s: seq<Vehicle>, now: nat)
    ensures BatchAlerts(s, now) == FlatMap(s, AlertsAt(now))
  {
    if s != [] {
      BatchAlertsIsFlatMap(s[..|s| - 1], now);
    }
  }

  /** Every threshold alert of a snapshot is stamped `now`, belongs to a
      vehicle of the snapshot, carries the id `now-vehicleId-tag` and is of
      one of the four threshold kinds. */
  lemma {:induction false} BatchAlertsFacts(s: seq<Vehicle>, now: nat)
    ensures forall a :: a in BatchAlerts(s, now) ==>
              && a.ts == now && HasVehicle(s, a.vehicleId)
              && a.id == AlertId(now, a.vehicleId, a.kind) && Rank(a.kind) < 4
  {
    if s != [] {
      var init := s[..|s| - 1];
      var last := s[|s| - 1];
      BatchAlertsFacts(init, now);
      VehicleAlertsShape(last, now);
      assert forall id :: HasVehicle(init, id) ==> HasVehicle(s, id) by {
        forall id | HasVehicle(init, id) ensures HasVehicle(s, id) {
          var i :| 0 <= i < |init| && init[i].id == id;
          assert s[i] == init[i];
        }
      }
      assert HasVehicle(s, last.id);
    }
  }

  /** The alerts of two snapshots read one after the other are the alerts
      of the first followed by those of the second. */
  lemma BatchAlertsAppend(a: seq<Vehicle>, b: seq<Vehicle>, now: nat)
    ensures BatchAlerts(a + b, now) == BatchAlerts(a, now) + BatchAlerts(b, now)
  {
    FlatMapAppend(a, b, AlertsAt(now));
    BatchAlertsIsFlatMap(a, now);
    BatchAlertsIsFlatMap(b, now);
    BatchAlertsIsFlatMap(a + b, now);
  }

  /** Vehicle by vehicle: the snapshot's alerts are those before vehicle
      `i`, then vehicle `i`'s, then those after it. */
  lemma GroupedByVehicle(s: seq<Vehicle>, now: nat, i: nat)
    requires i < |s|
    ensures BatchAlerts(s, now) ==
            BatchAlerts(s[..i], now) + VehicleAlerts(s[i], now) + BatchAlerts(s[i + 1..], now)
  {
    var front, rest := s[..i], s[i + 1..];
    assert s == front + ([s[i]] + rest);
    BatchAlertsAppend(front, [s[i]] + rest, now);
    BatchAlertsAppend([s[i]], rest, now);
    assert BatchAlerts([s[i]], now) == VehicleAlerts(s[i], now) by {
      assert [s[i]][..0] == [];
    }
    Assoc(BatchAlerts(front, now), VehicleAlerts(s[i], now), BatchAlerts(rest, now));
  }

  predicate DistinctVehicleIds(s: seq<Vehicle>) {
    forall i, j :: 0 <= i < j < |s| ==> s[i].id != s[j].id
  }

  /** One vehicle's alerts carry distinct ids: their kinds differ. */
  lemma VehicleAlertIdsDistinct(v: Vehicle, now: nat)
    ensures DistinctIds(VehicleAlerts(v, now))
  {
    var r := VehicleAlerts(v, now);
    VehicleAlertsShape(v, now);
    forall i, j | 0 <= i < j < |r| ensures r[i].id != r[j].id {
      assert r[i] in r && r[j] in r;
      if r[i].id == r[j].id {
        AlertIdInjective(now, v.id, r[i].kind, now, v.id, r[j].kind);
      }
    }
  }

  /** Within one snapshot with distinct vehicle ids, threshold alert ids
      are distinct. */
  lemma {:induction false} BatchIdsDistinct(s: seq<Vehicle>, now: nat)
    requires DistinctVehicleIds(s)
    ensures DistinctIds(BatchAlerts(s, now))
  {
    if s != [] {
      var init := s[..|s| - 1];
      var last := s[|s| - 1];
      var p := BatchAlerts(init, now);
      var q := VehicleAlerts(last, now);
      BatchIdsDistinct(init, now);
      BatchAlertsFacts(init, now);
      VehicleAlertIdsDistinct(last, now);
      VehicleAlertsShape(last, now);
      assert forall a :: a in p ==> a.vehicleId != last.id by {
        forall a | a in p ensures a.vehicleId != last.id {
          var i :| 0 <= i < |init| && init[i].id == a.vehicleId;
          assert s[i] == init[i];
        }
      }
      forall i, j | 0 <= i < |p| && 0 <= j < |q| ensures p[i].id != q[j].id {
        var a, b := p[i], q[j];
        assert a in p && b in q;
        if a.id == b.id {
          AlertIdInjective(now, a.vehicleId, a.kind, now, last.id, b.kind);
        }
      }
      DistinctConcat(p, q);
    }
  }

  /** Two lists with distinct ids and no id in common concatenate to a
      list with distinct ids. */
  lemma DistinctConcat(p: seq<Alert>, q: seq<Alert>)
    requires DistinctIds(p) && DistinctIds(q) && DisjointIds(p, q)
    ensures DistinctIds(p + q)
  {
    var r := p + q;
    forall i, j | 0 <= i < j < |r| ensures r[i].id != r[j].id {
      if j < |p| {
        assert r[i] == p[i] && r[j] == p[j];
      } else if i < |p| {
        assert r[i] == p[i] && r[j] == q[j - |p|];
      } else {
        assert r[i] == q[i - |p|] && r[j] == q[j - |p|];
      }
    }
  }

  /** The rule checks `thresholdAlerts` runs for one vehicle, appending
      each alert that fires to `alerts`. */
  method AppendVehicleAlerts(alerts0: seq<Alert>, v: Vehicle, now: nat) returns (alerts: seq<Alert>)
    ensures alerts == alerts0 + VehicleAlerts(v, now)
  {
    alerts := alerts0;
    if v.battery < 20.0 {
      alerts := alerts + [RuleAlert(v, now, BatteryLow)];
    }
    ghost var b := alerts;
    assert b == alerts0 + Rule(v, now, BatteryLow);
    if v.temperature > 60.0 {
      alerts := alerts + [RuleAlert(v, now, TempHigh)];
    }
    ghost var t := alerts;
    assert t == b + Rule(v, now, TempHigh);
    if SomeTireOut(v) {
      alerts := alerts + [RuleAlert(v, now, TirePressure)];
    }
    ghost var p := alerts;
    assert p == t + Rule(v, now, TirePressure);
    if v.speed > 110.0 {
      alerts := alerts + [RuleAlert(v, now, Speeding)];
    }
    assert alerts == p + Rule(v, now, Speeding);
    ghost var r0, r1, r2, r3 := Rule(v, now, BatteryLow), Rule(v, now, TempHigh), Rule(v, now, TirePressure), Rule(v, now, Speeding);
    Assoc(alerts0, r0, r1);
    Assoc(alerts0, r0 + r1, r2);
    Assoc(alerts0, r0 + r1 + r2, r3);
  }

  /** `thresholdAlerts`: runs the four rules over every vehicle of the
      snapshot, collecting the alerts they raise. */
  method ThresholdAlerts(snapshot: seq<Vehicle>, now: nat) returns (alerts: seq<Alert>)
    ensures alerts == BatchAlerts(snapshot, now)
  {
    alerts := [];
    var i := 0;
    while i < |snapshot|
      invariant 0 <= i <= |snapshot|
      invariant alerts == BatchAlerts(snapshot[..i], now)
    {
      alerts := AppendVehicleAlerts(alerts, snapshot[i], now);
      assert snapshot[..i + 1][..i] == snapshot[..i];
      i := i + 1;
    }
    assert snapshot[..i] == snapshot;
  }

  // ---------------------------------------------------------------------
  // Demo alerts

  /** `Math.floor(x * n)` for `x` drawn from [0, 1): an index below `n`. */
  function FloorIndex(x: real, n: nat): (i: nat)
    requires 0.0 <= x < 1.0 && n > 0
    ensures i < n
    ensures i as real <= x * n as real < i as real + 1.0
  {
    assert x * n as real < n as real;
    (x * n as real).Floor
  }

  /** The demo alert kinds, in the order the generator lists them. */
  const DemoKinds: seq<AlertKind> := [Geofence, HarshBraking, ChargingComplete]

  /** `randomMockAlerts`: with a non-empty snapshot and `gate <= 0.1`, one
      demo alert for the vehicle and kind the two picks select; else none.
      `gate`, `pickVehicle` and `pickKind` are the three `Math.random()`
      draws in the order the source makes them. */
  function RandomMockAlerts(snapshot: seq<Vehicle>, now: nat, gate: real, pickVehicle: real, pickKind: real): (r: seq<Alert>)
    requires 0.0 <= pickVehicle < 1.0 && 0.0 <= pickKind < 1.0
    ensures snapshot == [] || gate > 0.1 ==> r == []
    ensures snapshot != [] && gate <= 0.1 ==> |r| == 1
    ensures forall a :: a in r ==>
              && HasVehicle(snapshot, a.vehicleId)
              && a.kind in {Geofence, HarshBraking, ChargingComplete}
              && a.severity == (if a.kind == ChargingComplete then Info else Warning)
              && a.ts == now
              && a.id == AlertId(now, a.vehicleId, a.kind)
  {
    if |snapshot| == 0 || gate > 0.1 then []
    else
      var v := snapshot[FloorIndex(pickVehicle, |snapshot|)];
      var k := DemoKinds[FloorIndex(pickKind, |DemoKinds|)];
      [RuleAlert(v, now, k)]
  }

  /** A demo alert never shares an id with a threshold alert, whatever the
      two timestamps: their tags differ. */
  lemma DemoIdsFresh(s: seq<Vehicle>, now: nat, mockNow: nat, gate: real, pickVehicle: real, pickKind: real)
    requires 0.0 <= pickVehicle < 1.0 && 0.0 <= pickKind < 1.0
    ensures DisjointIds(RandomMockAlerts(s, mockNow, gate, pickVehicle, pickKind), BatchAlerts(s, now))
  {
    BatchAlertsFacts(s, now);
    TaggedApart(RandomMockAlerts(s, mockNow, gate, pickVehicle, pickKind), BatchAlerts(s, now));
  }

  /** Alerts whose ids carry their own tag: those of demo kinds and those
      of threshold kinds never share an id. */
  lemma TaggedApart(m: seq<Alert>, t: seq<Alert>)
    requires forall a :: a in m ==> Rank(a.kind) == 4 && a.ts >= 0 && a.id == AlertId(a.ts, a.vehicleId, a.kind)
    requires forall b :: b in t ==> Rank(b.kind) < 4 && b.ts >= 0 && b.id == AlertId(b.ts, b.vehicleId, b.kind)
    ensures DisjointIds(m, t)
  {
    forall i, j | 0 <= i < |m| && 0 <= j < |t| ensures m[i].id != t[j].id {
      var a, b := m[i], t[j];
      assert a in m;
      assert b in t;
      KindsApartIdsApart(a.ts, a.vehicleId, a.kind, b.ts, b.vehicleId, b.kind);
    }
  }

  /** An id tagged with a demo kind never equals an id tagged with a
      threshold kind, whatever the timestamps and vehicles. */
  lemma KindsApartIdsApart(n1: nat, v1: string, k1: AlertKind, n2: nat, v2: string, k2: AlertKind)
    requires Rank(k1) == 4 && Rank(k2) < 4
    ensures AlertId(n1, v1, k1) != AlertId(n2, v2, k2)
  {
    if AlertId(n1, v1, k1) == AlertId(n2, v2, k2) {
      AlertIdInjective(n1, v1, k1, n2, v2, k2);
    }
  }

  /** The alerts one telemetry event pushes, in push order, have distinct
      ids when the snapshot's vehicle ids are distinct. */
  lemma EventAlertIdsDistinct(s: seq<Vehicle>, now: nat, mockNow: nat, gate: real, pickVehicle: real, pickKind: real)
    requires 0.0 <= pickVehicle < 1.0 && 0.0 <= pickKind < 1.0
    requires DistinctVehicleIds(s)
    ensures DistinctIds(BatchAlerts(s, now) + RandomMockAlerts(s, mockNow, gate, pickVehicle, pickKind))
  {
    var t := BatchAlerts(s, now);
    var m := RandomMockAlerts(s, mockNow, gate, pickVehicle, pickKind);
    BatchIdsDistinct(s, now);
    DemoIdsFresh(s, now, mockNow, gate, pickVehicle, pickKind);
    if m != [] {
      forall i, j | 0 <= i < |t| && 0 <= j < |m| ensures t[i].id != m[j].id {
        assert m[j].id != t[i].id;
      }
    }
    DistinctConcat(t, m);
  }

  // ---------------------------------------------------------------------
  // The event handler

  /** The `detail` of a telemetry event: a vehicle array or anything else. */
  datatype Payload = Snapshot(vehicles: seq<Vehicle>) | NotAnArray

  /** The handler body: ignores a payload that is not an array; otherwise
      stores the snapshot, then pushes the threshold alerts and then the
      demo alert, one by one. */
  method HandleTelemetry(store: Fleet, payload: Payload, now: nat, mockNow: nat,
                         gate: real, pickVehicle: real, pickKind: real)
    requires 0.0 <= pickVehicle < 1.0 && 0.0 <= pickKind < 1.0
    modifies store
    ensures payload.NotAnArray? ==> unchanged(store)
    ensures payload.Snapshot? ==>
      var s := payload.vehicles;
      && (AcceptsBatch(old(store.vehicles), old(store.online)) ==>
            store.vehicles == s &&
            store.selectedVehicleId == NextSelection(old(store.vehicles) == [], old(store.selectedVehicleId), s))
      && (!AcceptsBatch(old(store.vehicles), old(store.online)) ==>
            store.vehicles == old(store.vehicles) && store.selectedVehicleId == old(store.selectedVehicleId))
      && store.alerts == AlertsAfterPushes(old(store.alerts), old(store.online),
                           BatchAlerts(s, now) + RandomMockAlerts(s, mockNow, gate, pickVehicle, pickKind))
    ensures store.search == old(store.search) && store.filterStatus == old(store.filterStatus)
    ensures store.sortBy == old(store.sortBy) && store.online == old(store.online)
  {
    if payload.NotAnArray? {
      return;
    }
    var snapshot := payload.vehicles;
    store.SetVehicles(snapshot);
    var threshold := ThresholdAlerts(snapshot, now);
    var xs := threshold + RandomMockAlerts(snapshot, mockNow, gate, pickVehicle, pickKind);
    PushAll(store, xs);
  }

  /** The `forEach(pushAlert)` over the threshold alerts followed by the
      demo alerts: `pushAlert` on each alert of `xs`, in order. */
  method PushAll(store: Fleet, xs: seq<Alert>)
    modifies store
    ensures store.alerts == AlertsAfterPushes(old(store.alerts), old(store.online), xs)
    ensures store.vehicles == old(store.vehicles) && store.selectedVehicleId == old(store.selectedVehicleId)
    ensures store.search == old(store.search) && store.filterStatus == old(store.filterStatus)
    ensures store.sortBy == old(store.sortBy) && store.online == old(store.online)
  {
    ghost var alerts0, online0 := store.alerts, store.online;
    ghost var done: seq<Alert> := [];
    for i := 0 to |xs|
      invariant done == xs[..i]
      invariant store.alerts == AlertsAfterPushes(alerts0, online0, done)
      invariant store.vehicles == old(store.vehicles) && store.selectedVehicleId == old(store.selectedVehicleId)
      invariant store.search == old(store.search) && store.filterStatus == old(store.filterStatus)
      invariant store.sortBy == old(store.sortBy) && store.online == online0
    {
      AlertsAfterPushesSnoc(alerts0, online0, done, xs[i]);
      store.PushAlert(xs[i]);
      done := done + [xs[i]];
    }
    assert done == xs;
  }

  /** While online, and when none of its alerts reuses an id already in the
      list, an event leaves its alerts newest first ahead of the old list,
      capped at MaxAlerts. */
  lemma EventPushesFresh(alerts: seq<Alert>, s: seq<Vehicle>, now: nat, mockNow: nat,
                         gate: real, pickVehicle: real, pickKind: real)
    requires 0.0 <= pickVehicle < 1.0 && 0.0 <= pickKind < 1.0
    requires AlertListValid(alerts) && DistinctVehicleIds(s)
    requires DisjointIds(BatchAlerts(s, now) + RandomMockAlerts(s, mockNow, gate, pickVehicle, pickKind), alerts)
    ensures var xs := BatchAlerts(s, now) + RandomMockAlerts(s, mockNow, gate, pickVehicle, pickKind);
            AlertsAfterPushes(alerts, true, xs) == Take(Reverse(xs) + alerts, MaxAlerts)
  {
    EventAlertIdsDistinct(s, now, mockNow, gate, pickVehicle, pickKind);
    PushesOfFreshIds(alerts, BatchAlerts(s, now) + RandomMockAlerts(s, mockNow, gate, pickVehicle, pickKind));
  }

}
