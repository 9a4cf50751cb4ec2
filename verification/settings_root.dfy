/** The settings window's coordination logic: which tab is selected, when the
    shared permission monitor is registered, and how the window reacts to
    appearing, disappearing, notifications and the debug-pane flag. */
module SettingsRoot {
  import opened Optional
  import opened Tabs
  import opened TabRouter
  import opened PermissionLog

  /** The window's own state. `isPreview` is fixed when the window is built. */
  datatype View = View(selected: SettingsTab, monitoring: bool, isPreview: bool)

  /** Everything a transition reads or writes: the process-wide router, the
      application's debug-pane flag, the window, and the calls made so far on
      the shared permission monitor. */
  datatype World = World(router: Router, debugPaneEnabled: bool, view: View, calls: seq<Call>)

  /** What can happen to a built window. */
  datatype Event =
    | Appear                              // the window is shown
    | Receive(tab: SettingsTab)           // a tab-switch notification arrives
    | DebugPaneChanged(enabled: bool)     // the application sets its debug-pane flag
    | SelectTab(tab: SettingsTab)         // the user picks a tab in the tab bar
    | Disappear                           // the window is torn down
    | TaskStart                           // the window's one-shot task starts
    | PaneRefresh                         // the permissions pane asks for a refresh
    | RouterRequest(tab: SettingsTab)     // some other caller posts a pending tab

  /** Building the window: the selection starts at the requested tab or at
      General, with no monitoring and no calls made yet. */
  function Init(router: Router, debugPaneEnabled: bool, isPreview: bool, initialTab: Option<SettingsTab>): (w: World)
    ensures initialTab.Some? ==> w.view.selected == initialTab.value
    ensures initialTab.None? ==> w.view.selected == General
    ensures !w.view.monitoring && w.calls == []
    ensures w.router == router && w.debugPaneEnabled == debugPaneEnabled && w.view.isPreview == isPreview
  {
    World(router, debugPaneEnabled, View(initialTab.GetOr(General), false, isPreview), [])
  }

  /** A requested tab as the window may show it: Debug becomes General while
      the debug pane is disabled; every other request is kept. */
  function ValidTab(w: World, requested: SettingsTab): (r: SettingsTab)
    ensures r != requested <==> requested == Debug && !w.debugPaneEnabled
    ensures r != requested ==> r == General
    ensures !w.debugPaneEnabled ==> r != Debug
  {
    if requested == Debug && !w.debugPaneEnabled then General else requested
  }

  /** Ask the shared monitor for a fresh status, unless in a preview. */
  function RefreshPerms(w: World): (r: World)
    ensures w.view.isPreview ==> r == w
    ensures !w.view.isPreview ==> r == w.(calls := w.calls + [Refresh])
  {
    if w.view.isPreview then w else w.(calls := w.calls + [Refresh])
  }

  /** Make monitoring match `tab`: on exactly when `tab` is Permissions.
      Register is called only when the flag goes from off to on, unregister
      only when it goes from on to off. A preview does nothing. */
  function UpdatePermissionMonitoring(w: World, tab: SettingsTab): (r: World)
    ensures w.view.isPreview ==> r == w
    ensures !w.view.isPreview ==> r.view.monitoring == (tab == Permissions)
    ensures r.calls == w.calls + (if !w.view.monitoring && r.view.monitoring then [Register]
                                  else if w.view.monitoring && !r.view.monitoring then [Unregister]
                                  else [])
    ensures r.router == w.router && r.debugPaneEnabled == w.debugPaneEnabled
    ensures r.view.selected == w.view.selected && r.view.isPreview == w.view.isPreview
  {
    if w.view.isPreview then w
    else
      var shouldMonitor := tab == Permissions;
      if shouldMonitor && !w.view.monitoring then
        w.(view := w.view.(monitoring := true), calls := w.calls + [Register])
      else if !shouldMonitor && w.view.monitoring then
        w.(view := w.view.(monitoring := false), calls := w.calls + [Unregister])
      else w
  }

  /** Stop monitoring if it is on, whatever tab is selected. No preview guard. */
  function StopPermissionMonitoring(w: World): (r: World)
    ensures !r.view.monitoring
    ensures !w.view.monitoring ==> r == w
    ensures w.view.monitoring ==> r.calls == w.calls + [Unregister]
    ensures r.router == w.router && r.debugPaneEnabled == w.debugPaneEnabled
    ensures r.view.selected == w.view.selected && r.view.isPreview == w.view.isPreview
  {
    if !w.view.monitoring then w
    else w.(view := w.view.(monitoring := false), calls := w.calls + [Unregister])
  }

  /** Store a new selection without any reaction. */
  function Assign(w: World, tab: SettingsTab): World {
    w.(view := w.view.(selected := tab))
  }

  /** The reaction to a changed selection: it fires only when the value
      actually differs from `before`, and then brings monitoring in line
      with the new selection. */
  function OnSelectedTabChange(w: World, before: SettingsTab): (r: World)
    ensures w.view.selected == before ==> r == w
    ensures w.view.selected != before && !w.view.isPreview ==> r.view.monitoring == (w.view.selected == Permissions)
    ensures r.view.selected == w.view.selected && r.view.isPreview == w.view.isPreview
    ensures r.router == w.router && r.debugPaneEnabled == w.debugPaneEnabled
    ensures w.calls <= r.calls && |r.calls| <= |w.calls| + 1
  {
    if w.view.selected != before then UpdatePermissionMonitoring(w, w.view.selected) else w
  }

  /** Assign the selection, then let the selection-change reaction run:
      re-selecting the current tab changes nothing, and a new tab brings
      monitoring in line with it. */
  function Select(w: World, tab: SettingsTab): (r: World)
    ensures r.view.selected == tab
    ensures tab == w.view.selected ==> r == w
    ensures tab != w.view.selected && !w.view.isPreview ==> r.view.monitoring == (tab == Permissions)
    ensures r.router == w.router && r.debugPaneEnabled == w.debugPaneEnabled && r.view.isPreview == w.view.isPreview
    ensures w.calls <= r.calls && |r.calls| <= |w.calls| + 1
  {
    OnSelectedTabChange(Assign(w, tab), w.view.selected)
  }

  /** Appearing: adopt a pending request (normalised), re-evaluate monitoring
      for the selection, then the selection-change reaction if it changed.
      The router is left empty; a pending Debug becomes General while the
      debug pane is disabled; with nothing pending the selection is kept;
      outside a preview monitoring ends up on exactly on Permissions. */
  function OnAppear(w: World): (r: World)
    ensures r.router == Empty && r.debugPaneEnabled == w.debugPaneEnabled && r.view.isPreview == w.view.isPreview
    ensures w.router.pending == None ==> r.view.selected == w.view.selected
    ensures w.router.pending == Some(Debug) && !w.debugPaneEnabled ==> r.view.selected == General
    ensures w.router.pending.Some? && (w.router.pending.value != Debug || w.debugPaneEnabled)
            ==> r.view.selected == w.router.pending.value
    ensures !w.view.isPreview ==> r.view.monitoring == (r.view.selected == Permissions)
    ensures w.calls <= r.calls
  {
    var (pending, router') := ConsumePending(w.router);
    var w1 := w.(router := router');
    var w2 := if pending.Some? then Assign(w1, ValidTab(w1, pending.value)) else w1;
    var w3 := UpdatePermissionMonitoring(w2, w2.view.selected);
    OnSelectedTabChange(w3, w.view.selected)
  }

  /** A notification selects its payload tab as it is, without normalising;
      a new tab brings monitoring in line with it. */
  function OnReceive(w: World, tab: SettingsTab): (r: World)
    ensures r.view.selected == tab
    ensures tab != w.view.selected && !w.view.isPreview ==> r.view.monitoring == (tab == Permissions)
    ensures r.router == w.router && r.debugPaneEnabled == w.debugPaneEnabled
  {
    Select(w, tab)
  }

  /** The application sets its debug-pane flag; the reaction fires only on an
      actual change and moves a Debug selection to General on disable. An
      enable, or a disable away from Debug, keeps the selection. */
  function OnDebugPaneChanged(w: World, enabled: bool): (r: World)
    ensures r.debugPaneEnabled == enabled && r.router == w.router && r.view.isPreview == w.view.isPreview
    ensures enabled || w.view.selected != Debug ==> r.view.selected == w.view.selected
    ensures w.debugPaneEnabled && !enabled ==> r.view.selected != Debug
    ensures r.view.selected != w.view.selected && !w.view.isPreview ==> !r.view.monitoring
  {
    if enabled == w.debugPaneEnabled then w
    else
      var w1 := w.(debugPaneEnabled := enabled);
      if !enabled && w1.view.selected == Debug then Select(w1, General) else w1
  }

  /** The one-shot task: exactly one refresh outside a preview, nothing in one. */
  function OnTask(w: World): (r: World)
    ensures w.view.isPreview ==> r == w
    ensures !w.view.isPreview ==> r == w.(calls := w.calls + [Refresh])
  {
    if w.view.isPreview then w else RefreshPerms(w)
  }

  /** One event. Each makes at most one call on the monitor, never rewrites
      earlier calls, and leaves the preview flag alone. */
  function Step(w: World, e: Event): (r: World)
    ensures w.calls <= r.calls && |r.calls| <= |w.calls| + 1
    ensures r.view.isPreview == w.view.isPreview
  {
    match e
    case Appear => OnAppear(w)
    case Receive(tab) => OnReceive(w, tab)
    case DebugPaneChanged(enabled) => OnDebugPaneChanged(w, enabled)
    case SelectTab(tab) => Select(w, tab)
    case Disappear => StopPermissionMonitoring(w)
    case TaskStart => OnTask(w)
    case PaneRefresh => RefreshPerms(w)
    case RouterRequest(tab) => w.(router := Request(w.router, tab))
  }

  /** The world after `events`, in order: earlier calls are kept, at most
      one call is added per event, and the preview flag never changes. */
  function Run(w: World, events: seq<Event>): (r: World)
    ensures w.calls <= r.calls && |r.calls| <= |w.calls| + |events|
    ensures r.view.isPreview == w.view.isPreview
    decreases |events|
  {
    if events == [] then w else Run(Step(w, events[0]), events[1..])
  }

  /** Calls on the monitor are correctly paired and agree with the flag; a
      preview has made no call at all. */
  predicate Paired(w: World) {
    MonitoringAfter(w.calls) == Some(w.view.monitoring)
    && (w.view.isPreview ==> w.calls == [])
  }

  /** The invariant every transition keeps: calls are paired, and monitoring
      is on only while Permissions is selected. */
  predicate Inv(w: World) {
    Paired(w) && (w.view.monitoring ==> w.view.selected == Permissions)
  }
}
