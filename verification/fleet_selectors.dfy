/** The read-only views over the fleet store (src/stores/fleetStore.ts):
    the selected vehicle, and the searched, filtered and sorted vehicle list.
    Both are computed from the store's fields and never change them. */
module FleetSelectors {
  import opened Options
  import opened Seqs
  import opened FleetStore

  // ---------------------------------------------------------------------
  // Selected vehicle

  /** The position of the first vehicle with this id, or |vehicles| if none. */
  function FirstIndexOf(vehicles: seq<Vehicle>, id: string): (k: nat)
    ensures k <= |vehicles|
    ensures forall j :: 0 <= j < k ==> vehicles[j].id != id
    ensures k < |vehicles| <==> HasVehicle(vehicles, id)
    ensures k < |vehicles| ==> vehicles[k].id == id
  {
    if vehicles == [] then 0
    else if vehicles[0].id == id then 0
    else
      var k := FirstIndexOf(vehicles[1..], id);
      assert forall j :: 0 < j <= |vehicles[1..]| ==> vehicles[j] == vehicles[1..][j - 1];
      assert HasVehicle(vehicles, id) ==> HasVehicle(vehicles[1..], id) by {
        if HasVehicle(vehicles, id) {
          var i :| 0 <= i < |vehicles| && vehicles[i].id == id;
          assert vehicles[1..][i - 1].id == id;
        }
      }
      1 + k
  }

  /** The first vehicle whose id equals the selection; none when nothing is
      selected or no vehicle carries that id. */
  function SelectedVehicle(vehicles: seq<Vehicle>, sel: Option<string>): (r: Option<Vehicle>)
    ensures r.Some? <==> sel.Some? && HasVehicle(vehicles, sel.value)
    ensures r.Some? ==>
              && r.value.id == sel.value
              && exists i :: 0 <= i < |vehicles| && vehicles[i] == r.value &&
                   forall j :: 0 <= j < i ==> vehicles[j].id != sel.value
  {
    if sel.None? then None
    else
      var k := FirstIndexOf(vehicles, sel.value);
      if k < |vehicles| then Some(vehicles[k]) else None
  }

  /** After an accepted non-empty batch, a truthy selection (or the first
      batch) always resolves to a vehicle of the batch. */
  lemma SelectedAfterBatch(firstSet: bool, sel: Option<string>, incoming: seq<Vehicle>)
    requires incoming != [] && (firstSet || Truthy(sel))
    ensures var v := SelectedVehicle(incoming, NextSelection(firstSet, sel, incoming));
            v.Some? && v.value in incoming
  {
  }

  // ---------------------------------------------------------------------
  // Search text

  /** The characters `String.prototype.trim` removes: white space and
      line terminators. */
  predicate IsTrimmable(c: char) {
    c in {' ', '\t', '\n', '\r', '\U{000B}', '\U{000C}', '\U{00A0}', '\U{FEFF}',
          '\U{1680}', '\U{2028}', '\U{2029}', '\U{202F}', '\U{205F}', '\U{3000}'}
    || ('\U{2000}' <= c <= '\U{200A}')
  }

  function TrimStart(s: string): (r: string)
    ensures r == [] || !IsTrimmable(r[0])
    ensures |r| <= |s| && r == s[|s| - |r|..]
    ensures forall k :: 0 <= k < |s| - |r| ==> IsTrimmable(s[k])
  {
    if s != [] && IsTrimmable(s[0]) then
      var r := TrimStart(s[1..]);
      assert forall k :: 0 < k < |s| ==> s[k] == s[1..][k - 1];
      r
    else s
  }

  function TrimEnd(s: string): (r: string)
    ensures r == [] || !IsTrimmable(r[|r| - 1])
    ensures |r| <= |s| && r == s[..|r|]
    ensures forall k :: |r| <= k < |s| ==> IsTrimmable(s[k])
  {
    if s != [] && IsTrimmable(s[|s| - 1]) then TrimEnd(s[..|s| - 1]) else s
  }

  /** `String.prototype.trim`: the text without leading and trailing white space. */
  function Trim(s: string): (r: string)
    ensures r == [] || (!IsTrimmable(r[0]) && !IsTrimmable(r[|r| - 1]))
    ensures s != [] && !IsTrimmable(s[0]) && !IsTrimmable(s[|s| - 1]) ==> r == s
  {
    TrimEnd(TrimStart(s))
  }

  /** The trimmed text is a slice of `s` with only white space cut at either end. */
  lemma TrimSlice(s: string)
    ensures exists i, j :: 0 <= i <= j <= |s| && Trim(s) == s[i..j] &&
              (forall k :: 0 <= k < i ==> IsTrimmable(s[k])) &&
              (forall k :: j <= k < |s| ==> IsTrimmable(s[k]))
  {
    var t := TrimStart(s);
    CutSlice(s, t, TrimEnd(t), IsTrimmableFn());
  }

  function IsTrimmableFn(): char -> bool {
    c => IsTrimmable(c)
  }

  function LowerChar(c: char): char {
    if 'A' <= c <= 'Z' then (c as int - 'A' as int + 'a' as int) as char else c
  }

  /** `toLowerCase` on ASCII letters; other characters are kept. */
  function ToLower(s: string): (r: string)
    ensures |r| == |s|
    ensures forall k :: 0 <= k < |s| ==> r[k] == LowerChar(s[k])
  {
    if s == [] then [] else [LowerChar(s[0])] + ToLower(s[1..])
  }

  /** `needle` occurs in `hay` starting at position `i`. */
  predicate OccursAt(hay: string, needle: string, i: int) {
    0 <= i <= |hay| && needle <= hay[i..]
  }

  /** `String.prototype.includes`: `needle` occurs somewhere in `hay`. */
  function Contains(hay: string, needle: string): (b: bool)
    ensures b <==> exists i :: OccursAt(hay, needle, i)
  {
    if needle <= hay then
      assert OccursAt(hay, needle, 0);
      true
    else if hay == [] then
      assert forall i :: !OccursAt(hay, needle, i);
      false
    else
      var b := Contains(hay[1..], needle);
      assert forall i :: 0 <= i < |hay| ==> hay[1..][i..] == hay[i + 1..];
      assert (exists i :: OccursAt(hay, needle, i)) ==> b by {
        if exists i :: OccursAt(hay, needle, i) {
          var i :| OccursAt(hay, needle, i);
          assert OccursAt(hay[1..], needle, i - 1);
        }
      }
      assert b ==> exists i :: OccursAt(hay, needle, i) by {
        if b {
          var i :| OccursAt(hay[1..], needle, i);
          assert OccursAt(hay, needle, i + 1);
        }
      }
      b
  }

  /** The normalised query: trimmed and lower-cased. */
  function Query(search: string): (r: string)
    ensures |r| <= |search|
    // no upper-case ASCII letter and no white space at either end
    ensures forall k :: 0 <= k < |r| ==> !('A' <= r[k] <= 'Z')
    ensures r == [] || (!IsTrimmable(r[0]) && !IsTrimmable(r[|r| - 1]))
    // a search of white space alone is the empty query
    ensures (forall k :: 0 <= k < |search| ==> IsTrimmable(search[k])) ==> r == []
  {
    var t := Trim(search);
    TrimSlice(search);
    forall k | 0 <= k < |t| {
      LowerCharFacts(t[k]);
    }
    ToLower(t)
  }

  /** The query is the search text with the white space at either end cut
      off, lower-cased. */
  lemma QueryIsLoweredSlice(search: string)
    ensures exists i, j :: 0 <= i <= j <= |search| && Query(search) == ToLower(search[i..j]) &&
              (forall k :: 0 <= k < i ==> IsTrimmable(search[k])) &&
              (forall k :: j <= k < |search| ==> IsTrimmable(search[k]))
  {
    TrimSlice(search);
    var i, j :| 0 <= i <= j <= |search| && Trim(search) == search[i..j] &&
                (forall k :: 0 <= k < i ==> IsTrimmable(search[k])) &&
                (forall k :: j <= k < |search| ==> IsTrimmable(search[k]));
    assert Query(search) == ToLower(search[i..j]);
  }

  /** Lower-casing leaves no upper-case ASCII letter and neither adds nor
      removes white space. */
  lemma LowerCharFacts(c: char)
    ensures !('A' <= LowerChar(c) <= 'Z')
    ensures IsTrimmable(LowerChar(c)) <==> IsTrimmable(c)
  {
  }

  /** Does a vehicle appear in the list view? An empty query matches every
      vehicle; otherwise the lower-cased name or id must contain it. The
      status must match unless the filter is "all". */
  predicate Shown(v: Vehicle, q: string, f: StatusFilter)
    // the status filter always applies
    ensures Shown(v, q, f) ==> f.All? || v.status == f.status
    // the empty query hides nothing the status filter lets through
    ensures q == [] ==> (Shown(v, q, f) <==> f.All? || v.status == f.status)
    // the query is matched against the name and the id, lower-cased
    ensures f.All? ==> (Shown(v, q, f) <==> q == [] || Contains(ToLower(v.name), q) || Contains(ToLower(v.id), q))
  {
    (q == [] || Contains(ToLower(v.name), q) || Contains(ToLower(v.id), q))
    && (f.All? || v.status == f.status)
  }

  function MatchesQuery(q: string): Vehicle -> bool {
    (v: Vehicle) => Contains(ToLower(v.name), q) || Contains(ToLower(v.id), q)
  }

  function HasStatus(st: Status): Vehicle -> bool {
    (v: Vehicle) => v.status == st
  }

  function ShownBy(q: string, f: StatusFilter): Vehicle -> bool {
    (v: Vehicle) => Shown(v, q, f)
  }

  // ---------------------------------------------------------------------
  // Stable descending sort

  function KeyOf(v: Vehicle, key: SortKey): real {
    match key
    case Battery => v.battery
    case Speed => v.speed
    case Distance => v.distance
  }

  /** Non-increasing by the key, checked on neighbours. */
  predicate SortedDesc(s: seq<Vehicle>, key: SortKey) {
    |s| <= 1 || (KeyOf(s[0], key) >= KeyOf(s[1], key) && SortedDesc(s[1..], key))
  }

  /** Sorted on neighbours is sorted on every pair. */
  lemma {:induction false} SortedDescPairwise(s: seq<Vehicle>, key: SortKey)
    ensures SortedDesc(s, key) <==>
            forall i, j :: 0 <= i < j < |s| ==> KeyOf(s[i], key) >= KeyOf(s[j], key)
  {
    if |s| > 1 {
      SortedDescPairwise(s[1..], key);
      if SortedDesc(s, key) {
        forall i, j | 0 <= i < j < |s| ensures KeyOf(s[i], key) >= KeyOf(s[j], key) {
          assert s[j] == s[1..][j - 1];
          if i > 0 {
            assert s[i] == s[1..][i - 1];
          } else if j > 1 {
            assert s[1] == s[1..][0];
          }
        }
      }
      if forall i, j :: 0 <= i < j < |s| ==> KeyOf(s[i], key) >= KeyOf(s[j], key) {
        forall i, j | 0 <= i < j < |s| - 1 ensures KeyOf(s[1..][i], key) >= KeyOf(s[1..][j], key) {
          assert s[1..][i] == s[i + 1] && s[1..][j] == s[j + 1];
        }
      }
    }
  }

  function KeyIs(key: SortKey, x: real): Vehicle -> bool {
    (v: Vehicle) => KeyOf(v, key) == x
  }

  /** The vehicles of `s` whose key equals `x`, in their order in `s`. */
  function WithKey(s: seq<Vehicle>, key: SortKey, x: real): seq<Vehicle> {
    Filter(s, KeyIs(key, x))
  }

  /** Places `v` before the first element whose key is not larger, so it
      stays ahead of the equal keys that came after it in the input. */
  function Insert(v: Vehicle, s: seq<Vehicle>, key: SortKey): (r: seq<Vehicle>)
    requires SortedDesc(s, key)
    ensures SortedDesc(r, key)
    ensures |r| == |s| + 1 && (r[0] == v || (s != [] && r[0] == s[0]))
  {
    if s == [] || KeyOf(s[0], key) <= KeyOf(v, key) then
      [v] + s
    else
      assert s == [s[0]] + s[1..];
      var rest := Insert(v, s[1..], key);
      assert ([s[0]] + rest)[1..] == rest;
      [s[0]] + rest
  }

  /** Inserting adds exactly `v` to the multiset of elements. */
  lemma {:induction false} InsertPermutes(v: Vehicle, s: seq<Vehicle>, key: SortKey)
    requires SortedDesc(s, key)
    ensures multiset(Insert(v, s, key)) == multiset(s) + multiset{v}
  {
    if s != [] && KeyOf(s[0], key) > KeyOf(v, key) {
      InsertPermutes(v, s[1..], key);
      assert s == [s[0]] + s[1..];
    }
  }

  lemma SwapEmpty<T>(a: seq<T>, b: seq<T>, t: seq<T>)
    requires a == [] || b == []
    ensures a + (b + t) == b + (a + t)
  {
    if a == [] {
      assert a + (b + t) == b + t == b + (a + t);
    } else {
      assert a + (b + t) == a + t == b + (a + t);
    }
  }

  /** Inserting `v` adds it in front of the vehicles with the same key and
      leaves every other key's vehicles as they were. */
  lemma {:induction false} InsertStable(v: Vehicle, s: seq<Vehicle>, key: SortKey, x: real)
    requires SortedDesc(s, key)
    ensures WithKey(Insert(v, s, key), key, x) ==
            (if KeyOf(v, key) == x then [v] else []) + WithKey(s, key, x)
  {
    var added := if KeyOf(v, key) == x then [v] else [];
    if s == [] || KeyOf(s[0], key) <= KeyOf(v, key) {
      assert Insert(v, s, key) == [v] + s;
      FilterCons(v, s, KeyIs(key, x));
    } else {
      var rest := Insert(v, s[1..], key);
      assert Insert(v, s, key) == [s[0]] + rest;
      InsertStable(v, s[1..], key, x);
      assert s == [s[0]] + s[1..];
      KeepBehindHead(s[0], rest, s[1..], added, KeyIs(key, x));
    }
  }

  /** One step of `InsertStable`: an element kept in front of both lists. */
  lemma KeepBehindHead(h: Vehicle, rest: seq<Vehicle>, tail: seq<Vehicle>, added: seq<Vehicle>, p: Vehicle -> bool)
    requires Filter(rest, p) == added + Filter(tail, p)
    requires added == [] || !p(h)
    ensures Filter([h] + rest, p) == added + Filter([h] + tail, p)
  {
    FilterCons(h, rest, p);
    FilterCons(h, tail, p);
    SwapEmpty(if p(h) then [h] else [], added, Filter(tail, p));
  }

  /** A stable sort, non-increasing by the key (insertion sort). */
  function SortDesc(s: seq<Vehicle>, key: SortKey): (r: seq<Vehicle>)
    ensures SortedDesc(r, key)
    ensures multiset(r) == multiset(s)
    ensures forall x :: WithKey(r, key, x) == WithKey(s, key, x)
  {
    if s == [] then []
    else
      assert s == [s[0]] + s[1..];
      var sorted := SortDesc(s[1..], key);
      var r := Insert(s[0], sorted, key);
      InsertPermutes(s[0], sorted, key);
      assert forall x :: WithKey(r, key, x) == WithKey(s, key, x) by {
        forall x ensures WithKey(r, key, x) == WithKey(s, key, x) {
          InsertStable(s[0], sorted, key, x);
        }
      }
      r
  }

  /** The list view: search, then status filter, then (when a key is set)
      a stable sort by that key, largest first. */
  function FilteredSortedVehicles(vehicles: seq<Vehicle>, search: string, f: StatusFilter, sortBy: Option<SortKey>): (r: seq<Vehicle>)
    ensures forall v :: multiset(r)[v] == if Shown(v, Query(search), f) then multiset(vehicles)[v] else 0
    ensures sortBy.None? ==> r == Filter(vehicles, ShownBy(Query(search), f))
    ensures sortBy.Some? ==> SortedDesc(r, sortBy.value)
    ensures sortBy.Some? ==> forall x :: WithKey(r, sortBy.value, x) == WithKey(Filter(vehicles, ShownBy(Query(search), f)), sortBy.value, x)
  {
    var q := Query(search);
    var afterSearch := if q != [] then Filter(vehicles, MatchesQuery(q)) else vehicles;
    var list := match f
      case All => afterSearch
      case Only(st) => Filter(afterSearch, HasStatus(st));
    assert list == Filter(vehicles, ShownBy(q, f)) by {
      ShownIsSearchThenStatus(vehicles, q, f);
    }
    FilterMultiset(vehicles, ShownBy(q, f));
    if sortBy.Some? then SortDesc(list, sortBy.value) else list
  }

  /** The two filters of the list view amount to one filter by `Shown`. */
  lemma ShownIsSearchThenStatus(vehicles: seq<Vehicle>, q: string, f: StatusFilter)
    ensures Filter(vehicles, ShownBy(q, f)) ==
      var afterSearch := if q != [] then Filter(vehicles, MatchesQuery(q)) else vehicles;
      match f
      case All => afterSearch
      case Only(st) => Filter(afterSearch, HasStatus(st))
  {
    var afterSearch := if q != [] then Filter(vehicles, MatchesQuery(q)) else vehicles;
    match f
    case All =>
      if q != [] {
        FilterAgree(vehicles, ShownBy(q, f), MatchesQuery(q));
      } else {
        FilterKeepsAll(vehicles, ShownBy(q, f));
      }
    case Only(st) =>
      if q != [] {
        FilterFilter(vehicles, MatchesQuery(q), HasStatus(st));
        FilterAgree(vehicles, ShownBy(q, f), Both(MatchesQuery(q), HasStatus(st)));
      } else {
        FilterAgree(vehicles, ShownBy(q, f), HasStatus(st));
      }
  }

}
