/** The shell's section reordering (src/components/layout/AppShell.tsx,
    lines 28-37): the stored order filtered to the known sections, and the
    drag-and-drop handler that moves one section and saves the result. */
module AppShell {
  import opened Options
  import opened Seqs
  import opened UiStore

  /** The keys of the section table. */
  predicate IsSection(id: string)
    // the default order lists exactly the sections
    ensures IsSection(id) <==> id in DefaultLayout
  {
    id == "overview" || id == "vehicle" || id == "alerts"
  }

  function IsSectionKey(): string -> bool {
    id => IsSection(id)
  }

  /** `ordered`: the stored entries that name a section, in stored order. */
  function Ordered(layoutOrder: seq<string>): (r: seq<string>)
    ensures forall id :: id in r <==> id in layoutOrder && IsSection(id)
    ensures forall id :: multiset(r)[id] == if IsSection(id) then multiset(layoutOrder)[id] else 0
    ensures (forall i :: 0 <= i < |layoutOrder| ==> IsSection(layoutOrder[i])) ==> r == layoutOrder
  {
    var r := Filter(layoutOrder, IsSectionKey());
    FilterMultiset(layoutOrder, IsSectionKey());
    assert (forall i :: 0 <= i < |layoutOrder| ==> IsSection(layoutOrder[i])) ==> r == layoutOrder by {
      if forall i :: 0 <= i < |layoutOrder| ==> IsSection(layoutOrder[i]) {
        FilterKeepsAll(layoutOrder, IsSectionKey());
      }
    }
    r
  }

  /** Filtering works piece by piece: the section keys of `a + b` are those
      of `a` followed by those of `b`. */
  lemma OrderedAppend(a: seq<string>, b: seq<string>)
    ensures Ordered(a + b) == Ordered(a) + Ordered(b)
  {
    FilterAppend(a, b, IsSectionKey());
  }

  /** One entry is kept exactly when it names a section. Together with
      `OrderedAppend` this fixes the order of `Ordered` as the stored order. */
  lemma OrderedSingleton(x: string)
    ensures Ordered([x]) == if IsSection(x) then [x] else []
  {
  }

  /** `splice(k, 1)`: `s` without its element at `k`. */
  function RemoveAt(s: seq<string>, k: nat): (r: seq<string>)
    requires k < |s|
    ensures |r| == |s| - 1
    ensures forall i :: 0 <= i < k ==> r[i] == s[i]
    ensures forall i :: k <= i < |r| ==> r[i] == s[i + 1]
  {
    s[..k] + s[k + 1..]
  }

  /** `splice(k, 0, x)`: `s` with `x` inserted before position `k`. */
  function InsertAt(s: seq<string>, k: nat, x: string): (r: seq<string>)
    requires k <= |s|
    ensures |r| == |s| + 1 && r[k] == x
    ensures RemoveAt(r, k) == s
  {
    var r := s[..k] + [x] + s[k..];
    assert RemoveAt(r, k) == s;
    r
  }

  /** Moving the element at `from` to position `to`: a permutation that
      puts the moved element at `to` and keeps the others in their order. */
  function Move(s: seq<string>, from: nat, to: nat): (r: seq<string>)
    requires from < |s| && to < |s|
    ensures |r| == |s|
    ensures multiset(r) == multiset(s)
    ensures r[to] == s[from]
    ensures RemoveAt(r, to) == RemoveAt(s, from)
  {
    var rest := RemoveAt(s, from);
    var r := InsertAt(rest, to, s[from]);
    RemoveAtMultiset(s, from);
    InsertAtMultiset(rest, to, s[from]);
    r
  }

  lemma RemoveAtMultiset(s: seq<string>, k: nat)
    requires k < |s|
    ensures multiset(RemoveAt(s, k)) + multiset{s[k]} == multiset(s)
  {
    assert s == s[..k] + [s[k]] + s[k + 1..];
  }

  lemma InsertAtMultiset(s: seq<string>, k: nat, x: string)
    requires k <= |s|
    ensures multiset(InsertAt(s, k, x)) == multiset(s) + multiset{x}
  {
    assert s == s[..k] + s[k..];
  }

  /** A move of the filtered order saves only section names. */
  lemma MovedOrderKnown(layoutOrder: seq<string>, from: nat, to: nat)
    requires from < |Ordered(layoutOrder)| && to < |Ordered(layoutOrder)|
    ensures forall id :: id in Move(Ordered(layoutOrder), from, to) ==> IsSection(id)
  {
    var o := Ordered(layoutOrder);
    var r := Move(o, from, to);
    forall id | id in r ensures IsSection(id) {
      assert id in multiset(r);
      assert id in multiset(o);
    }
  }

  /** `onDragEnd`: a drop outside the list changes nothing; otherwise the
      filtered order with the dragged section moved is saved through
      `setLayoutOrder` (`writeOk`: whether the storage write succeeds).
      The drag library reports indices within the list it shows. */
  method OnDragEnd(ui: Ui, destination: Option<nat>, source: nat, writeOk: bool)
    requires destination.Some? ==>
               source < |Ordered(ui.layoutOrder)| && destination.value < |Ordered(ui.layoutOrder)|
    modifies ui
    ensures destination.None? ==> unchanged(ui)
    ensures destination.Some? ==>
              && ui.layoutOrder == Move(Ordered(old(ui.layoutOrder)), source, destination.value)
              && ui.storedLayout == (if writeOk then Storage.Parsed(Storage.EncodeStrings(ui.layoutOrder))
                                     else old(ui.storedLayout))
    ensures destination.Some? ==> forall id :: id in ui.layoutOrder ==> IsSection(id)
    ensures ui.sidebarCollapsed == old(ui.sidebarCollapsed) && ui.mobileOpen == old(ui.mobileOpen)
    ensures ui.online == old(ui.online) && ui.demoOffline == old(ui.demoOffline)
    ensures ui.customizeMode == old(ui.customizeMode)
  {
    if destination.None? {
      return;
    }
    var next := Ordered(ui.layoutOrder);
    MovedOrderKnown(ui.layoutOrder, source, destination.value);
    var moved := next[source];
    next := next[..source] + next[source + 1..];
    next := next[..destination.value] + [moved] + next[destination.value..];
    ui.SetLayoutOrder(next, writeOk);
  }

}
