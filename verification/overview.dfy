/** The fleet overview panel's figures (src/components/overview/Overview.tsx,
    lines 21-46): vehicles per operational status and the battery
    distribution with its average. */
module FleetOverview {
  import opened Options
  import opened FleetStore

  /** The status counter a vehicle increments, if any. */
  datatype Category = Active | Inactive | Shop | Out | Uncounted

  /** An `operationalStatus` override, when truthy, decides the counter
      (an unknown value counts nowhere); otherwise idle vehicles are
      inactive and moving or charging ones active. */
  function CategoryOf(v: Vehicle): (c: Category)
    ensures c == Uncounted <==>
              Truthy(v.operationalStatus) &&
              v.operationalStatus.value != "active" && v.operationalStatus.value != "inactive" &&
              v.operationalStatus.value != "shop" && v.operationalStatus.value != "out"
    ensures Truthy(v.operationalStatus) && v.operationalStatus.value == "active" ==> c == Active
    ensures Truthy(v.operationalStatus) && v.operationalStatus.value == "inactive" ==> c == Inactive
    ensures Truthy(v.operationalStatus) && v.operationalStatus.value == "shop" ==> c == Shop
    ensures Truthy(v.operationalStatus) && v.operationalStatus.value == "out" ==> c == Out
    ensures !Truthy(v.operationalStatus) ==> (c == Inactive <==> v.status == Idle)
    ensures !Truthy(v.operationalStatus) ==> (c == Active <==> v.status != Idle)
  {
    if Truthy(v.operationalStatus) then
      var o := v.operationalStatus.value;
      if o == "active" then Active
      else if o == "inactive" then Inactive
      else if o == "shop" then Shop
      else if o == "out" then Out
      else Uncounted
    else if v.status == Idle then Inactive
    else Active
  }

  /** How many vehicles of `s` fall in category `c`. */
  function Count(s: seq<Vehicle>, c: Category): (n: nat)
    ensures n <= |s|
  {
    if s == [] then 0
    else Count(s[..|s| - 1], c) + (if CategoryOf(s[|s| - 1]) == c then 1 else 0)
  }

  /** The five categories partition the fleet. */
  lemma {:induction false} CountsPartition(s: seq<Vehicle>)
    ensures Count(s, Active) + Count(s, Inactive) + Count(s, Shop) + Count(s, Out) + Count(s, Uncounted) == |s|
  {
    if s != [] {
      CountsPartition(s[..|s| - 1]);
    }
  }

  /** Each vehicle increments at most one counter, so the four counters
      never exceed the fleet size, and they add up to it when no override
      holds an unknown value. */
  lemma StatusCountsBound(s: seq<Vehicle>)
    ensures Count(s, Active) + Count(s, Inactive) + Count(s, Shop) + Count(s, Out) <= |s|
    ensures (forall i :: 0 <= i < |s| ==> CategoryOf(s[i]) != Uncounted) ==>
              Count(s, Active) + Count(s, Inactive) + Count(s, Shop) + Count(s, Out) == |s|
  {
    CountsPartition(s);
    if forall i :: 0 <= i < |s| ==> CategoryOf(s[i]) != Uncounted {
      NoneUncounted(s);
    }
  }

  lemma {:induction false} NoneUncounted(s: seq<Vehicle>)
    requires forall i :: 0 <= i < |s| ==> CategoryOf(s[i]) != Uncounted
    ensures Count(s, Uncounted) == 0
  {
    if s != [] {
      NoneUncounted(s[..|s| - 1]);
    }
  }

  /** One more vehicle adds one to the count of its category. */
  lemma CountStep(s: seq<Vehicle>, i: nat)
    requires i < |s|
    ensures forall c :: Count(s[..i + 1], c) == Count(s[..i], c) + (if CategoryOf(s[i]) == c then 1 else 0)
  {
    assert s[..i + 1][..i] == s[..i];
  }

  /** The first loop: one pass over the vehicles, bumping the counter of
      each vehicle's category. */
  method CountStatuses(vehicles: seq<Vehicle>) returns (active: nat, inactive: nat, shop: nat, out: nat)
    ensures active == Count(vehicles, Active) && inactive == Count(vehicles, Inactive)
    ensures shop == Count(vehicles, Shop) && out == Count(vehicles, Out)
  {
    active, inactive, shop, out := 0, 0, 0, 0;
    var i := 0;
    while i < |vehicles|
      invariant 0 <= i <= |vehicles|
      invariant active == Count(vehicles[..i], Active) && inactive == Count(vehicles[..i], Inactive)
      invariant shop == Count(vehicles[..i], Shop) && out == Count(vehicles[..i], Out)
    {
      var v := vehicles[i];
      CountStep(vehicles, i);
      if Truthy(v.operationalStatus) {
        var o := v.operationalStatus.value;
        if o == "active" {
          active := active + 1;
        } else if o == "inactive" {
          inactive := inactive + 1;
        } else if o == "shop" {
          shop := shop + 1;
        } else if o == "out" {
          out := out + 1;
        }
      } else {
        if v.status == Idle {
          inactive := inactive + 1;
        } else {
          active := active + 1;
        }
      }
      i := i + 1;
    }
    assert vehicles[..i] == vehicles;
  }

  // ---------------------------------------------------------------------
  // Battery distribution

  /** `Math.max(0, Math.min(100, b))`. */
  function Clamp(b: real): (r: real)
    ensures 0.0 <= r <= 100.0
    ensures 0.0 <= b <= 100.0 ==> r == b
    ensures b < 0.0 ==> r == 0.0
    ensures b > 100.0 ==> r == 100.0
  {
    var m := if b < 100.0 then b else 100.0;
    if m > 0.0 then m else 0.0
  }

  /** The histogram bucket of a clamped reading: [0,25), [25,50), [50,75)
      or [75,100]. */
  function Bucket(b: real): (k: nat)
    requires 0.0 <= b <= 100.0
    ensures k < 4
    ensures 25.0 * k as real <= b
    ensures k < 3 ==> b < 25.0 * (k + 1) as real
  {
    if b < 25.0 then 0 else if b < 50.0 then 1 else if b < 75.0 then 2 else 3
  }

  /** The sum of the clamped battery readings. */
  function SumClamped(s: seq<Vehicle>): (t: real)
    ensures 0.0 <= t <= 100.0 * |s| as real
  {
    if s == [] then 0.0 else SumClamped(s[..|s| - 1]) + Clamp(s[|s| - 1].battery)
  }

  /** How many vehicles have their clamped reading in bucket `k`. */
  function InBucket(s: seq<Vehicle>, k: nat): (n: nat)
    ensures n <= |s|
  {
    if s == [] then 0
    else InBucket(s[..|s| - 1], k) + (if Bucket(Clamp(s[|s| - 1].battery)) == k then 1 else 0)
  }

  /** Every vehicle lands in exactly one bucket. */
  lemma {:induction false} BucketsPartition(s: seq<Vehicle>)
    ensures InBucket(s, 0) + InBucket(s, 1) + InBucket(s, 2) + InBucket(s, 3) == |s|
  {
    if s != [] {
      BucketsPartition(s[..|s| - 1]);
    }
  }

  /** The mean of the clamped readings; 0 for an empty fleet. */
  function Average(sum: real, count: nat): (r: real)
    ensures count == 0 ==> r == 0.0
    ensures count > 0 ==> r * count as real == sum
  {
    if count == 0 then 0.0 else sum / count as real
  }

  /** The average of clamped readings is a percentage. */
  lemma AverageInRange(s: seq<Vehicle>)
    ensures 0.0 <= Average(SumClamped(s), |s|) <= 100.0
  {
    if |s| > 0 {
      DivBound(SumClamped(s), |s| as real);
    }
  }

  lemma DivBound(t: real, n: real)
    requires n > 0.0 && 0.0 <= t <= 100.0 * n
    ensures 0.0 <= t / n <= 100.0
  {
    var a := t / n;
    assert a * n == t;
  }

  /** One more vehicle adds its clamped reading to the sum and one to the
      count of its bucket. */
  lemma BatteryStep(s: seq<Vehicle>, i: nat)
    requires i < |s|
    ensures SumClamped(s[..i + 1]) == SumClamped(s[..i]) + Clamp(s[i].battery)
    ensures forall k :: InBucket(s[..i + 1], k) == InBucket(s[..i], k) + (if Bucket(Clamp(s[i].battery)) == k then 1 else 0)
  {
    assert s[..i + 1][..i] == s[..i];
  }

  /** The second loop and the average: the sum of clamped readings, the
      four bucket counts (which add up to the fleet size) and the mean. */
  method BatteryStats(vehicles: seq<Vehicle>) returns (sum: real, r0: nat, r1: nat, r2: nat, r3: nat, avg: real)
    ensures sum == SumClamped(vehicles)
    ensures r0 == InBucket(vehicles, 0) && r1 == InBucket(vehicles, 1)
    ensures r2 == InBucket(vehicles, 2) && r3 == InBucket(vehicles, 3)
    ensures r0 + r1 + r2 + r3 == |vehicles|
    ensures avg == Average(sum, |vehicles|) && 0.0 <= avg <= 100.0
    ensures vehicles == [] ==> avg == 0.0
  {
    sum, r0, r1, r2, r3 := 0.0, 0, 0, 0, 0;
    var i := 0;
    while i < |vehicles|
      invariant 0 <= i <= |vehicles|
      invariant sum == SumClamped(vehicles[..i])
      invariant r0 == InBucket(vehicles[..i], 0) && r1 == InBucket(vehicles[..i], 1)
      invariant r2 == InBucket(vehicles[..i], 2) && r3 == InBucket(vehicles[..i], 3)
    {
      var b := Clamp(vehicles[i].battery);
      BatteryStep(vehicles, i);
      sum := sum + b;
      if b < 25.0 {
        r0 := r0 + 1;
      } else if b < 50.0 {
        r1 := r1 + 1;
      } else if b < 75.0 {
        r2 := r2 + 1;
      } else {
        r3 := r3 + 1;
      }
      i := i + 1;
    }
    assert vehicles[..i] == vehicles;
    BucketsPartition(vehicles);
    AverageInRange(vehicles);
    avg := if |vehicles| > 0 then sum / |vehicles| as real else 0.0;
  }

}
