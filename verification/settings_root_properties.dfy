/** What the settings window's transitions promise, over single steps and
    over whole runs of events. */
module SettingsRootProperties {
  import opened Optional
  import opened Tabs
  import opened TabRouter
  import opened PermissionLog
  import opened SettingsRoot

  /** A freshly built window satisfies the invariant. */
  lemma InitEstablishesInv(router: Router, debugPaneEnabled: bool, isPreview: bool, initialTab: Option<SettingsTab>)
    ensures Inv(Init(router, debugPaneEnabled, isPreview, initialTab))
  {
  }

  /** Normalising twice is normalising once. */
  lemma ValidTabIdempotent(w: World, requested: SettingsTab)
    ensures ValidTab(w, ValidTab(w, requested)) == ValidTab(w, requested)
  {
  }

  /** Re-evaluating monitoring for the same tab a second time makes no call. */
  lemma UpdateTwiceMakesNoSecondCall(w: World, tab: SettingsTab)
    ensures UpdatePermissionMonitoring(UpdatePermissionMonitoring(w, tab), tab) == UpdatePermissionMonitoring(w, tab)
  {
  }

  /** Re-evaluating monitoring for the selected tab restores the invariant
      from any state whose calls are paired. */
  lemma UpdateRestoresInv(w: World, tab: SettingsTab)
    requires Paired(w) && w.view.selected == tab
    ensures Inv(UpdatePermissionMonitoring(w, tab))
  {
    var r := UpdatePermissionMonitoring(w, tab);
    if r.calls != w.calls {
      MonitoringAfterAppend(w.calls, r.calls[|w.calls|], w.view.monitoring);
      assert r.calls == w.calls + [r.calls[|w.calls|]];
    }
  }

  /** Selecting a tab keeps the invariant. */
  lemma SelectPreservesInv(w: World, tab: SettingsTab)
    requires Inv(w)
    ensures Inv(Select(w, tab))
  {
    if tab != w.view.selected {
      UpdateRestoresInv(Assign(w, tab), tab);
    }
  }

  /** The trailing selection-change reaction after appearing never makes a
      call: the appear handler has already brought monitoring in line. */
  lemma AppearTrailingReactionIsSilent(w: World)
    ensures var (pending, router') := ConsumePending(w.router);
            var w1 := w.(router := router');
            var w2 := if pending.Some? then Assign(w1, ValidTab(w1, pending.value)) else w1;
            var w3 := UpdatePermissionMonitoring(w2, w2.view.selected);
            OnAppear(w) == w3
  {
    var (pending, router') := ConsumePending(w.router);
    var w1 := w.(router := router');
    var w2 := if pending.Some? then Assign(w1, ValidTab(w1, pending.value)) else w1;
    UpdateTwiceMakesNoSecondCall(w2, w2.view.selected);
  }

  /** Opening a window with no pending request shows the initial tab, or
      General when none was given. */
  lemma InitThenAppearKeepsInitialTab(debugPaneEnabled: bool, isPreview: bool, initialTab: Option<SettingsTab>)
    ensures Step(Init(Empty, debugPaneEnabled, isPreview, initialTab), Appear).view.selected == initialTab.GetOr(General)
  {
  }

  /** A notification selects its payload as it is: even Debug while the debug
      pane is disabled. */
  lemma ReceiveIsNotNormalised(w: World, tab: SettingsTab)
    ensures Step(w, Receive(tab)).view.selected == tab
    ensures Step(w, Receive(tab)).debugPaneEnabled == w.debugPaneEnabled
    ensures !w.debugPaneEnabled ==> Step(w, Receive(Debug)).view.selected == Debug
  {
  }

  /** Disabling the debug pane moves a Debug selection to General; every other
      flag change leaves the selection alone. */
  lemma DebugDisableResetsSelection(w: World, enabled: bool)
    ensures Step(w, DebugPaneChanged(enabled)).debugPaneEnabled == enabled
    ensures Step(w, DebugPaneChanged(enabled)).view.selected != w.view.selected
            <==> w.debugPaneEnabled && !enabled && w.view.selected == Debug
    ensures Step(w, DebugPaneChanged(enabled)).view.selected != w.view.selected
            ==> Step(w, DebugPaneChanged(enabled)).view.selected == General
  {
  }

  /** Every transition keeps the invariant. */
  lemma StepPreservesInv(w: World, e: Event)
    requires Inv(w)
    ensures Inv(Step(w, e))
  {
    match e
    case Appear =>
      var (pending, router') := ConsumePending(w.router);
      var w1 := w.(router := router');
      var w2 := if pending.Some? then Assign(w1, ValidTab(w1, pending.value)) else w1;
      AppearTrailingReactionIsSilent(w);
      UpdateRestoresInv(w2, w2.view.selected);
    case Receive(tab) =>
      SelectPreservesInv(w, tab);
    case DebugPaneChanged(enabled) =>
      if enabled != w.debugPaneEnabled && !enabled && w.view.selected == Debug {
        SelectPreservesInv(w.(debugPaneEnabled := enabled), General);
      }
    case SelectTab(tab) =>
      SelectPreservesInv(w, tab);
    case Disappear =>
      if w.view.monitoring {
        MonitoringAfterAppend(w.calls, Unregister, true);
      }
    case TaskStart =>
      if !w.view.isPreview {
        MonitoringAfterAppend(w.calls, Refresh, w.view.monitoring);
      }
    case PaneRefresh =>
      if !w.view.isPreview {
        MonitoringAfterAppend(w.calls, Refresh, w.view.monitoring);
      }
    case RouterRequest(tab) =>
  }

  /** Every run keeps the invariant. */
  lemma {:induction false} RunPreservesInv(w: World, events: seq<Event>)
    requires Inv(w)
    ensures Inv(Run(w, events))
    decreases |events|
  {
    if events != [] {
      StepPreservesInv(w, events[0]);
      RunPreservesInv(Step(w, events[0]), events[1..]);
    }
  }

  /** After any run from a fresh window, registers outnumber unregisters by
      one while monitoring and are equal otherwise. */
  lemma RunKeepsCountsBalanced(router: Router, debugPaneEnabled: bool, isPreview: bool,
                               initialTab: Option<SettingsTab>, events: seq<Event>)
    ensures var w := Run(Init(router, debugPaneEnabled, isPreview, initialTab), events);
            Count(w.calls, Register) == Count(w.calls, Unregister) + (if w.view.monitoring then 1 else 0)
  {
    var w0 := Init(router, debugPaneEnabled, isPreview, initialTab);
    InitEstablishesInv(router, debugPaneEnabled, isPreview, initialTab);
    RunPreservesInv(w0, events);
    var w := Run(w0, events);
    PairedCounts(w.calls, w.view.monitoring);
  }

  /** Disappearing turns monitoring off and balances the calls, whatever tab
      is selected; a second disappear makes no call. */
  lemma DisappearBalancesCalls(w: World)
    requires Inv(w)
    ensures !Step(w, Disappear).view.monitoring
    ensures Step(w, Disappear).view.selected == w.view.selected
    ensures Count(Step(w, Disappear).calls, Register) == Count(Step(w, Disappear).calls, Unregister)
    ensures Step(Step(w, Disappear), Disappear) == Step(w, Disappear)
  {
    StepPreservesInv(w, Disappear);
    PairedCounts(Step(w, Disappear).calls, false);
  }

  /** In a preview the monitor is never called by any single step, even by
      the unguarded stop, since monitoring can never have been turned on. */
  lemma PreviewStepIsSilent(w: World, e: Event)
    requires Inv(w) && w.view.isPreview
    ensures Step(w, e).calls == []
    ensures Step(w, e).view.isPreview && Inv(Step(w, e))
  {
    StepPreservesInv(w, e);
  }

  /** In a preview no register, unregister or refresh ever happens, whatever
      the events. */
  lemma {:induction false} PreviewRunIsSilent(w: World, events: seq<Event>)
    requires Inv(w) && w.view.isPreview
    ensures Run(w, events).calls == []
    decreases |events|
  {
    if events == [] {
    } else {
      PreviewStepIsSilent(w, events[0]);
      PreviewRunIsSilent(Step(w, events[0]), events[1..]);
    }
  }
}
