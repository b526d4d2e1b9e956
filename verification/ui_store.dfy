/** The interface store (src/stores/uiStore.ts): sidebar and drawer flags,
    the effective connectivity flag, customize mode and the persisted
    section order. `navigator.onLine` is passed in by the caller (true
    where the runtime has no navigator); the persisted value is a field. */
module UiStore {
  import opened Storage

  /** The section order used when nothing valid is stored. */
  const DefaultLayout: seq<string> := ["overview", "vehicle", "alerts"]

  /** A stored value that is an array of strings. */
  predicate IsStringArray(stored: Stored) {
    && stored.Parsed?
    && stored.value.JArray?
    && forall i :: 0 <= i < |stored.value.items| ==> stored.value.items[i].JString?
  }

  /** `loadLayout`: the stored array when it holds only strings, whatever
      its length, contents or repetitions; the default order otherwise. */
  function LoadLayout(stored: Stored): (r: seq<string>)
    ensures IsStringArray(stored) ==> EncodeStrings(r) == stored.value
    ensures !IsStringArray(stored) ==> r == DefaultLayout
  {
    if IsStringArray(stored) then
      var items := stored.value.items;
      var r := seq(|items|, i requires 0 <= i < |items| => items[i].s);
      assert EncodeStrings(r).items == items;
      r
    else DefaultLayout
  }

  /** Any order written by `setLayoutOrder` reads back unchanged. */
  lemma LoadLayoutRoundTrip(order: seq<string>)
    ensures LoadLayout(Parsed(EncodeStrings(order))) == order
  {
    var r := LoadLayout(Parsed(EncodeStrings(order)));
    assert |r| == |order|;
    forall i | 0 <= i < |r| ensures r[i] == order[i] {
      assert EncodeStrings(r).items[i] == EncodeStrings(order).items[i];
    }
  }

  class Ui {
    var sidebarCollapsed: bool
    var mobileOpen: bool
    var online: bool
    var demoOffline: bool
    var customizeMode: bool
    var layoutOrder: seq<string>
    /** What local storage holds under the layout key. */
    var storedLayout: Stored

    /** The simulated outage always wins over the browser. */
    ghost predicate Valid()
      reads this
    {
      demoOffline ==> !online
    }

    /** The initial state, reading the layout from storage once. */
    constructor (navOnline: bool, stored: Stored)
      ensures !sidebarCollapsed && !mobileOpen && !customizeMode
      ensures online == navOnline && !demoOffline
      ensures layoutOrder == LoadLayout(stored) && storedLayout == stored
      ensures Valid()
    {
      sidebarCollapsed := false;
      mobileOpen := false;
      online := navOnline;
      demoOffline := false;
      customizeMode := false;
      layoutOrder := LoadLayout(stored);
      storedLayout := stored;
    }

    method Expand()
      modifies this
      ensures !sidebarCollapsed
      ensures mobileOpen == old(mobileOpen) && online == old(online) && demoOffline == old(demoOffline)
      ensures customizeMode == old(customizeMode)
      ensures layoutOrder == old(layoutOrder) && storedLayout == old(storedLayout)
    {
      sidebarCollapsed := false;
    }

    method Collapse()
      modifies this
      ensures sidebarCollapsed
      ensures mobileOpen == old(mobileOpen) && online == old(online) && demoOffline == old(demoOffline)
      ensures customizeMode == old(customizeMode)
      ensures layoutOrder == old(layoutOrder) && storedLayout == old(storedLayout)
    {
      sidebarCollapsed := true;
    }

    method OpenMobile()
      modifies this
      ensures mobileOpen
      ensures sidebarCollapsed == old(sidebarCollapsed) && online == old(online) && demoOffline == old(demoOffline)
      ensures customizeMode == old(customizeMode)
      ensures layoutOrder == old(layoutOrder) && storedLayout == old(storedLayout)
    {
      mobileOpen := true;
    }

    method CloseMobile()
      modifies this
      ensures !mobileOpen
      ensures sidebarCollapsed == old(sidebarCollapsed) && online == old(online) && demoOffline == old(demoOffline)
      ensures customizeMode == old(customizeMode)
      ensures layoutOrder == old(layoutOrder) && storedLayout == old(storedLayout)
    {
      mobileOpen := false;
    }

    /** Flips the simulated outage and recomputes the effective flag. */
    method ToggleDemoOffline(navOnline: bool)
      modifies this
      ensures demoOffline == !old(demoOffline)
      ensures online == (navOnline && !demoOffline)
      ensures Valid()
      ensures sidebarCollapsed == old(sidebarCollapsed) && mobileOpen == old(mobileOpen)
      ensures customizeMode == old(customizeMode)
      ensures layoutOrder == old(layoutOrder) && storedLayout == old(storedLayout)
    {
      var next := !demoOffline;
      demoOffline := next;
      online := navOnline && !next;
    }

    /** The `update` listener run on browser "online" and "offline" events. */
    method NetworkUpdate(navOnline: bool)
      modifies this
      ensures online == (navOnline && !demoOffline)
      ensures Valid()
      ensures demoOffline == old(demoOffline)
      ensures sidebarCollapsed == old(sidebarCollapsed) && mobileOpen == old(mobileOpen)
      ensures customizeMode == old(customizeMode)
      ensures layoutOrder == old(layoutOrder) && storedLayout == old(storedLayout)
    {
      online := navOnline && !demoOffline;
    }

    /** Without a window nothing happens; otherwise the flag is brought up
        to date once (the listeners it registers are not modelled; each
        later event is a call of `NetworkUpdate`). */
    method InitNetworkWatch(hasWindow: bool, navOnline: bool)
      modifies this
      ensures hasWindow ==> online == (navOnline && !demoOffline)
      ensures !hasWindow ==> online == old(online)
      ensures old(Valid()) ==> Valid()
      ensures demoOffline == old(demoOffline)
      ensures sidebarCollapsed == old(sidebarCollapsed) && mobileOpen == old(mobileOpen)
      ensures customizeMode == old(customizeMode)
      ensures layoutOrder == old(layoutOrder) && storedLayout == old(storedLayout)
    {
      if !hasWindow {
        return;
      }
      NetworkUpdate(navOnline);
    }

    method ToggleCustomize()
      modifies this
      ensures customizeMode == !old(customizeMode)
      ensures sidebarCollapsed == old(sidebarCollapsed) && mobileOpen == old(mobileOpen)
      ensures online == old(online) && demoOffline == old(demoOffline)
      ensures layoutOrder == old(layoutOrder) && storedLayout == old(storedLayout)
    {
      customizeMode := !customizeMode;
    }

    /** Sets the order and writes it to storage; a failed write
        (`writeOk` false) is swallowed. A written order reads back as set. */
    method SetLayoutOrder(order: seq<string>, writeOk: bool)
      modifies this
      ensures layoutOrder == order
      ensures storedLayout == if writeOk then Parsed(EncodeStrings(order)) else old(storedLayout)
      ensures writeOk ==> LoadLayout(storedLayout) == order
      ensures sidebarCollapsed == old(sidebarCollapsed) && mobileOpen == old(mobileOpen)
      ensures online == old(online) && demoOffline == old(demoOffline)
      ensures customizeMode == old(customizeMode)
    {
      layoutOrder := order;
      if writeOk {
        storedLayout := Parsed(EncodeStrings(order));
        LoadLayoutRoundTrip(order);
      }
    }
  }

  /** Toggling the simulated outage twice, with the browser's flag
      unchanged, restores both flags of a state in step with the browser. */
  method ToggleDemoOfflineTwice(ui: Ui, navOnline: bool)
    requires ui.online == (navOnline && !ui.demoOffline)
    modifies ui
    ensures ui.demoOffline == old(ui.demoOffline) && ui.online == old(ui.online)
  {
    ui.ToggleDemoOffline(navOnline);
    ui.ToggleDemoOffline(navOnline);
  }

  /** Toggling customize mode twice restores it. */
  method ToggleCustomizeTwice(ui: Ui)
    modifies ui
    ensures ui.customizeMode == old(ui.customizeMode)
  {
    ui.ToggleCustomize();
    ui.ToggleCustomize();
  }

}
