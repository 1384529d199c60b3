/** The status badge component: a colour per status string, with a caller
    supplied colour for statuses the table does not know, and a label. Values
    the JavaScript tests for truthiness are `Option<string>`: absent and the
    empty string are both falsy. */
module StatusBadge {

  import opened Types

  const Green := "#2ECC71"
  const Amber := "#F39C12"
  const Red := "#E74C3C"
  const Grey := "#95A5A6"

  predicate KnownStatus(status: string)
  {
    status in {"completado", "verificado", "pendiente", "rechazado"}
  }

  function BadgeColor(status: string, customColor: Option<string>): (c: string)
    ensures status == "completado" || status == "verificado" ==> c == Green
    ensures status == "pendiente" ==> c == Amber
    ensures status == "rechazado" ==> c == Red
    ensures !KnownStatus(status) ==> c == (if Truthy(customColor) then customColor.value else Grey)
  {
    match status
    case "completado" => Green
    case "verificado" => Green
    case "pendiente" => Amber
    case "rechazado" => Red
    case _ => if Truthy(customColor) then customColor.value else Grey
  }

  function BadgeLabel(text: Option<string>, status: string): (l: string)
    ensures Truthy(text) ==> l == text.value
    ensures !Truthy(text) ==> l == status
  {
    if Truthy(text) then text.value else status
  }

  /** For the four statuses of the table the custom colour is never consulted. */
  lemma CustomColorIgnoredForKnown(status: string, c1: Option<string>, c2: Option<string>)
    requires KnownStatus(status)
    ensures BadgeColor(status, c1) == BadgeColor(status, c2) != Grey
  {
  }

  /** Only an unknown status can reach the grey fallback or a custom colour. */
  lemma FallbackOnlyForUnknown(status: string, custom: Option<string>)
    requires BadgeColor(status, custom) !in {Green, Amber, Red}
    ensures !KnownStatus(status)
  {
  }
}

/** The bottom tab bar drawn under the four tab views: a fixed table of tabs,
    a highlight for the one whose id equals the current view, and a press that
    hands that tab's id to the caller. */
module BottomTabBar {

  datatype Tab = Tab(id: string, icon: string, caption: string)

  const Tabs: seq<Tab> := [
    Tab("home", "🏠", "Inicio"),
    Tab("documents", "📄", "Documentos"),
    Tab("identifications", "🆔", "IDs"),
    Tab("settings", "⚙️", "Ajustes")
  ]

  predicate IsTabId(view: string)
  {
    view in {"home", "documents", "identifications", "settings"}
  }

  /** The highlight rule shared by the item, its icon and its label. */
  predicate IsActive(currentView: string, tab: Tab)
  {
    currentView == tab.id
  }

  /** What `onTabPress` is called with when the tab at `index` is pressed. */
  function PressedTabId(index: nat): (id: string)
    requires index < |Tabs|
    ensures IsTabId(id) && IsActive(id, Tabs[index])
  {
    Tabs[index].id
  }

  /** The highlight flag of every tab, in table order. */
  function Highlights(currentView: string): (h: seq<bool>)
    ensures |h| == |Tabs|
    ensures forall i :: 0 <= i < |h| ==> (h[i] <==> Tabs[i].id == currentView)
  {
    seq(|Tabs|, i requires 0 <= i < |Tabs| => IsActive(currentView, Tabs[i]))
  }

  /** Four tabs, in order, with distinct ids; so at most one is highlighted,
      exactly one for a tab id and none for any other view. */
  lemma TabsTable()
    ensures |Tabs| == 4
    ensures Tabs[0].id == "home" && Tabs[1].id == "documents"
    ensures Tabs[2].id == "identifications" && Tabs[3].id == "settings"
    ensures forall i, j :: 0 <= i < j < |Tabs| ==> Tabs[i].id != Tabs[j].id
    ensures forall v :: IsTabId(v) <==> exists i :: 0 <= i < |Tabs| && Tabs[i].id == v
  {
    forall v | IsTabId(v) ensures exists i :: 0 <= i < |Tabs| && Tabs[i].id == v {
      if v == "home" { assert Tabs[0].id == v; }
      else if v == "documents" { assert Tabs[1].id == v; }
      else if v == "identifications" { assert Tabs[2].id == v; }
      else { assert Tabs[3].id == v; }
    }
  }

  lemma AtMostOneHighlighted(currentView: string, i: nat, j: nat)
    requires i < |Tabs| && j < |Tabs|
    requires Highlights(currentView)[i] && Highlights(currentView)[j]
    ensures i == j
  {
    TabsTable();
  }

  lemma NoHighlightOffTabs(currentView: string)
    requires !IsTabId(currentView)
    ensures forall i :: 0 <= i < |Tabs| ==> !Highlights(currentView)[i]
  {
  }

  lemma ExactlyOneHighlightedOnTab(currentView: string)
    requires IsTabId(currentView)
    ensures exists i ::
              && 0 <= i < |Tabs| && Highlights(currentView)[i]
              && forall j :: 0 <= j < |Tabs| && Highlights(currentView)[j] ==> j == i
  {
    TabsTable();
    var h := Highlights(currentView);
    var i: nat;
    if currentView == "home" { i := 0; }
    else if currentView == "documents" { i := 1; }
    else if currentView == "identifications" { i := 2; }
    else { i := 3; }
    assert h[i];
    forall j | 0 <= j < |Tabs| && h[j]
      ensures j == i
    {
      AtMostOneHighlighted(currentView, i, j);
    }
  }
}
