# Settings window coordination, modelled in Dafny

The macOS app's settings window (`SettingsRootView`) is mostly a declarative
tab view. Underneath it sits a small sequential state machine, and this
project models that machine and proves its properties:

- **Tabs** (`tabs.dfy`): the nine `SettingsTab` cases in declaration order,
  their titles, and the shared window size.
- **TabRouter** (`router.dfy`): the process-wide single-slot mailbox.
  `request` overwrites the slot. `consumePending` returns the slot's value and
  clears it.
- **PermissionLog** (`permission_log.dfy`): the shared `PermissionMonitor`,
  seen only as a log of `register`, `unregister` and `refreshNow` calls. It
  also holds a replay of the log from "not observing". The replay accepts a
  log only when registers and unregisters alternate: no register while
  observing, no unregister while not observing. It then yields whether the
  monitor is still observing at the end.
- **SettingsRoot** (`settings_root.dfy`): the window state. This is the
  selected tab, the `monitoringPermissions` flag and the `isPreview` flag. It
  sits in a world with the router, the application's `debugPaneEnabled` flag
  and the call log. The module has the private helpers (`validTab`,
  `refreshPerms`, `updatePermissionMonitoring`, `stopPermissionMonitoring`).
  It also has one transition per view modifier: `onAppear`, `onReceive`,
  both `onChange` handlers, `onDisappear` and `task`. `Step` and `Run` apply
  events one at a time and in sequence. Besides the view modifiers there are
  three more events:
  - `SelectTab` is the user picking a tab through the `TabView` selection
    binding (line 18).
  - `PaneRefresh` is the permissions pane calling the `refresh` closure it is
    given, which is `refreshPerms` (line 45).
  - `RouterRequest` is some other part of the application calling
    `SettingsTabRouter.request` (lines 145-147).
- **SettingsRootProperties** (`settings_root_properties.dfy`): the promises.
  These are single-step lemmas plus the run-long invariant: calls are
  paired, monitoring is on only while Permissions is selected, and a preview
  never calls the monitor.

SwiftUI's `onChange(of:)` is modelled as firing only when the observed
value really differs. For the debug flag and the selection, it fires after
the assignment that caused it. In `onAppear` the selection-change reaction
runs after the closure has already re-evaluated monitoring.
`AppearTrailingReactionIsSilent` shows that this second evaluation never
makes a call.

The notification path assigns its payload tab directly. It does not pass
the tab through `validTab`, and the model keeps this behaviour:
`ReceiveIsNotNormalised` shows that a notification can select Debug while
the debug pane is disabled.

## Model

| member | source | states |
|---|---|---|
| Tabs.AllCases | apps/macos/Sources/Clawdis/SettingsRootView.swift:122-123 | the case list holds nine distinct tabs, each tab at its declaration position, from General to About |
| Tabs.AllCasesComplete | apps/macos/Sources/Clawdis/SettingsRootView.swift:122-123 | every tab occurs in the case list |
| Tabs.Title | apps/macos/Sources/Clawdis/SettingsRootView.swift:126-138 | every tab has a non-empty title that starts with a capital letter |
| Tabs.TitlesDistinct | apps/macos/Sources/Clawdis/SettingsRootView.swift:126-138 | two tabs have the same title only if they are the same tab |
| TabRouter.Request | apps/macos/Sources/Clawdis/SettingsRootView.swift:145-147 | after a request, exactly that tab is pending |
| TabRouter.ConsumePending | apps/macos/Sources/Clawdis/SettingsRootView.swift:149-152 | consuming returns what was pending and leaves the slot empty |
| TabRouter.ConsumeOnce | apps/macos/Sources/Clawdis/SettingsRootView.swift:145-152 | a consume right after `request(t)` returns `t`, and a second consume returns nothing |
| TabRouter.LastWriteWins | apps/macos/Sources/Clawdis/SettingsRootView.swift:145-147 | of two requests with no consume between them, only the second stays pending |
| PermissionLog.PairedCounts | apps/macos/Sources/Clawdis/SettingsRootView.swift:103-119 | in a correctly paired call log, registers exceed unregisters by one while monitoring and are equal otherwise |
| SettingsRoot.Init | apps/macos/Sources/Clawdis/SettingsRootView.swift:6-15 | a new window selects the initial tab, or General if none is given; monitoring is off and no call has been made |
| SettingsRoot.ValidTab | apps/macos/Sources/Clawdis/SettingsRootView.swift:92-95 | the requested tab is changed only when it is Debug and the debug pane is disabled, and then it becomes General; the result is never Debug while the pane is disabled |
| SettingsRoot.RefreshPerms | apps/macos/Sources/Clawdis/SettingsRootView.swift:98-101 | a preview changes nothing; otherwise exactly one refresh call is appended |
| SettingsRoot.UpdatePermissionMonitoring | apps/macos/Sources/Clawdis/SettingsRootView.swift:103-113 | outside a preview the flag ends up equal to `tab == Permissions`; register is called only when the flag goes off to on, and unregister only when it goes on to off; a preview changes nothing |
| SettingsRoot.StopPermissionMonitoring | apps/macos/Sources/Clawdis/SettingsRootView.swift:115-119 | the flag ends up off; one unregister is made if it was on, and nothing happens if it was off |
| SettingsRoot.OnSelectedTabChange | apps/macos/Sources/Clawdis/SettingsRootView.swift:82-84 | the reaction does nothing when the selection did not change; otherwise, outside a preview, monitoring ends up on exactly when the new tab is Permissions, with at most one call added |
| SettingsRoot.Select | apps/macos/Sources/Clawdis/SettingsRootView.swift:82-84 | after a selection the chosen tab is selected; re-selecting the current tab changes nothing; a new tab brings monitoring in line with it outside a preview; at most one call is added |
| SettingsRoot.OnAppear | apps/macos/Sources/Clawdis/SettingsRootView.swift:71-76 | appearing empties the router; it selects the pending tab (a pending Debug becomes General while the pane is disabled) or keeps the selection if nothing is pending; outside a preview, monitoring is then on exactly when Permissions is selected; earlier calls are kept |
| SettingsRoot.OnReceive | apps/macos/Sources/Clawdis/SettingsRootView.swift:64-70 | a notification selects its payload tab; if that is a new tab, monitoring follows it outside a preview; router and debug flag are unchanged |
| SettingsRoot.OnDebugPaneChanged | apps/macos/Sources/Clawdis/SettingsRootView.swift:77-81 | the flag takes the new value; enabling, or disabling while another tab is selected, keeps the selection; disabling from enabled never leaves Debug selected, and a forced change turns monitoring off outside a preview |
| SettingsRoot.OnTask | apps/macos/Sources/Clawdis/SettingsRootView.swift:86-89 | in a preview the task does nothing; otherwise it makes exactly one refresh call and changes nothing else |
| SettingsRoot.Step | apps/macos/Sources/Clawdis/SettingsRootView.swift:17-89 | every event keeps earlier calls, adds at most one call on the monitor, and keeps the preview flag |
| SettingsRoot.Run | apps/macos/Sources/Clawdis/SettingsRootView.swift:17-89 | after any sequence of events, earlier calls are kept, at most one call per event is added, and the preview flag is unchanged |
| SettingsRootProperties.InitEstablishesInv | apps/macos/Sources/Clawdis/SettingsRootView.swift:6-15 | a new window has paired calls, and monitoring is on only on the Permissions tab |
| SettingsRootProperties.ValidTabIdempotent | apps/macos/Sources/Clawdis/SettingsRootView.swift:92-95 | normalising an already normalised tab changes nothing |
| SettingsRootProperties.UpdateTwiceMakesNoSecondCall | apps/macos/Sources/Clawdis/SettingsRootView.swift:103-113 | re-evaluating monitoring twice for the same tab makes no second call |
| SettingsRootProperties.UpdateRestoresInv | apps/macos/Sources/Clawdis/SettingsRootView.swift:103-113 | re-evaluating monitoring for the selected tab leaves the calls paired and monitoring on only on Permissions |
| SettingsRootProperties.SelectPreservesInv | apps/macos/Sources/Clawdis/SettingsRootView.swift:82-84 | changing the selection, followed by its change reaction, keeps the invariant |
| SettingsRootProperties.AppearTrailingReactionIsSilent | apps/macos/Sources/Clawdis/SettingsRootView.swift:71-84 | the selection-change reaction that follows `onAppear` makes no further call |
| SettingsRootProperties.InitThenAppearKeepsInitialTab | apps/macos/Sources/Clawdis/SettingsRootView.swift:11-15 | with nothing pending, the window shows the initial tab, or General if none was given |
| SettingsRootProperties.ReceiveIsNotNormalised | apps/macos/Sources/Clawdis/SettingsRootView.swift:64-70 | a notification selects its payload tab as it is, so it can select Debug while the debug pane is disabled |
| SettingsRootProperties.DebugDisableResetsSelection | apps/macos/Sources/Clawdis/SettingsRootView.swift:77-81 | the selection changes if and only if the flag goes from enabled to disabled while Debug is selected, and then it becomes General |
| SettingsRootProperties.StepPreservesInv | apps/macos/Sources/Clawdis/SettingsRootView.swift:64-119 | every event keeps the calls paired, keeps monitoring on only on Permissions, and keeps a preview free of calls |
| SettingsRootProperties.RunPreservesInv | apps/macos/Sources/Clawdis/SettingsRootView.swift:64-119 | any sequence of events keeps that invariant |
| SettingsRootProperties.RunKeepsCountsBalanced | apps/macos/Sources/Clawdis/SettingsRootView.swift:103-119 | after any run from a new window, registers minus unregisters is 1 while monitoring and 0 otherwise |
| SettingsRootProperties.DisappearBalancesCalls | apps/macos/Sources/Clawdis/SettingsRootView.swift:85-85 | after disappearing, monitoring is off and registers equal unregisters, whatever tab is selected; a second disappear changes nothing |
| SettingsRootProperties.PreviewStepIsSilent | apps/macos/Sources/Clawdis/SettingsRootView.swift:86-119 | in a preview, no single event calls the monitor, not even the unguarded stop |
| SettingsRootProperties.PreviewRunIsSilent | apps/macos/Sources/Clawdis/SettingsRootView.swift:86-119 | in a preview, no sequence of events ever makes a register, unregister or refresh call |

## Left out

- The declarative view tree is not modelled. This covers `TabView`, the tab labels and icons, padding and frames, and the pane views. These have no logic to state.
- The spring animation on a received notification is purely visual. Only the tab assignment is kept.
- `NotificationCenter` and the notification name are not modelled. A received notification is the event `Receive(tab)`. A notification whose payload is not a tab is dropped by the source and does not appear as an event.
- The internals of `PermissionMonitor` are not modelled. `refreshNow` is a logged call: its suspension and its result are not modelled, and neither is the published `status`.
- `OnboardingController.show()` is an external collaborator and is not modelled. Nor is the updater, which is only passed through to a pane.
- Window geometry is kept as two integer constants. The source's `CGFloat` type plays no part in any logic.
- `ProcessInfo.isPreview` is a boolean fixed when the window is built.
- The debug-only preview provider is not modelled.
- Events may arrive in any order, including before `Appear` or after `Disappear`. The invariants hold for that larger set of runs. SwiftUI's real delivery order is not modelled.
- `SelectTab(Debug)` is allowed while the debug pane is disabled, although the source's `TabView` has no Debug tab then (lines 50-54). This only adds runs, and every invariant holds over them too.
- Tabs.Title: its contract states only that titles are non-empty, capitalised and distinct (`TitlesDistinct`). The exact strings appear only in its body.
