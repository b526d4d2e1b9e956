/** The panel-order store (src/stores/layoutStore.ts): the order of the
    three dashboard panels, restored from storage when it passes validation,
    and the drag-mode flag. Whether a window exists and whether a storage
    write succeeds are inputs; the stored value is a field. */
module LayoutStore {
  import opened Storage

  datatype PanelId = Overview | Vehicle | Alerts

  function PanelName(p: PanelId): string {
    match p
    case Overview => "overview"
    case Vehicle => "vehicle"
    case Alerts => "alerts"
  }

  /** The default order. */
  const Base: seq<PanelId> := [Overview, Vehicle, Alerts]

  /** `JSON.stringify` of an order, as the parser gives it back. */
  function EncodePanels(order: seq<PanelId>): Json {
    EncodeStrings(seq(|order|, i requires 0 <= i < |order| => PanelName(order[i])))
  }

  /** `BASE.includes(x)`: the value is one of the three panel names. */
  predicate IsPanelName(x: Json) {
    x == JString("overview") || x == JString("vehicle") || x == JString("alerts")
  }

  /** The validation `load` applies: an array of exactly three panel names;
      repetitions are not checked. */
  predicate Acceptable(j: Json) {
    j.JArray? && |j.items| == |Base| && forall i :: 0 <= i < |j.items| ==> IsPanelName(j.items[i])
  }

  function DecodePanel(x: Json): PanelId
    requires IsPanelName(x)
  {
    if x == JString("overview") then Overview
    else if x == JString("vehicle") then Vehicle
    else Alerts
  }

  /** `load`: the stored order when a window exists and the stored value
      passes validation; the default order in every other case (no window,
      nothing stored, unparsable text, a value that fails validation). */
  function Load(hasWindow: bool, stored: Stored): (r: seq<PanelId>)
    ensures |r| == |Base|
    ensures hasWindow && stored.Parsed? && Acceptable(stored.value) ==> EncodePanels(r) == stored.value
    ensures !(hasWindow && stored.Parsed? && Acceptable(stored.value)) ==> r == Base
  {
    if !hasWindow then Base
    else if !stored.Parsed? then Base
    else if Acceptable(stored.value) then
      var items := stored.value.items;
      var r := seq(|items|, i requires 0 <= i < |items| => DecodePanel(items[i]));
      assert forall i :: 0 <= i < |items| ==> JString(PanelName(r[i])) == items[i];
      assert EncodePanels(r).items == items;
      r
    else Base
  }

  /** Every three-panel order reads back as written; any other length is
      rejected. */
  lemma LoadRoundTrip(order: seq<PanelId>)
    ensures Load(true, Parsed(EncodePanels(order))) == if |order| == |Base| then order else Base
  {
    var j := EncodePanels(order);
    if |order| == |Base| {
      assert Acceptable(j) by {
        forall i | 0 <= i < |j.items| ensures IsPanelName(j.items[i]) {
          assert j.items[i] == JString(PanelName(order[i]));
        }
      }
      var r := Load(true, Parsed(j));
      forall i | 0 <= i < |r| ensures r[i] == order[i] {
        assert EncodePanels(r).items[i] == j.items[i];
        assert JString(PanelName(r[i])) == JString(PanelName(order[i]));
      }
    }
  }

  /** A repeated panel passes validation: three times "alerts" is restored
      as it is, so a restored order need not be a permutation of `Base`. */
  lemma RepeatedPanelsAccepted()
    ensures Load(true, Parsed(JArray([JString("alerts"), JString("alerts"), JString("alerts")]))) ==
            [Alerts, Alerts, Alerts]
  {
    LoadRoundTrip([Alerts, Alerts, Alerts]);
    assert EncodePanels([Alerts, Alerts, Alerts]) ==
           JArray([JString("alerts"), JString("alerts"), JString("alerts")]);
  }

  class Layout {
    var order: seq<PanelId>
    var dragMode: bool
    /** What local storage holds under the panel-order key. */
    var saved: Stored

    /** The initial state: the order restored from storage, drag mode off. */
    constructor (hasWindow: bool, stored: Stored)
      ensures order == Load(hasWindow, stored) && !dragMode && saved == stored
    {
      order := Load(hasWindow, stored);
      dragMode := false;
      saved := stored;
    }

    /** Saves `next` (skipped without a window, a failed write is
        swallowed), then makes it the order. A saved three-panel order
        is what the next `load` restores. */
    method SetOrder(next: seq<PanelId>, hasWindow: bool, writeOk: bool)
      modifies this
      ensures order == next && dragMode == old(dragMode)
      ensures saved == if hasWindow && writeOk then Parsed(EncodePanels(next)) else old(saved)
      ensures hasWindow && writeOk && |next| == |Base| ==> Load(true, saved) == next
    {
      if hasWindow && writeOk {
        saved := Parsed(EncodePanels(next));
        LoadRoundTrip(next);
      }
      order := next;
    }

    method ToggleDragMode()
      modifies this
      ensures dragMode == !old(dragMode)
      ensures order == old(order) && saved == old(saved)
    {
      dragMode := !dragMode;
    }

    method DisableDragMode()
      modifies this
      ensures !dragMode
      ensures order == old(order) && saved == old(saved)
    {
      dragMode := false;
    }
  }

}
