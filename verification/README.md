# Legend State DevTools core, modelled in Dafny

This project models the core of the Legend State dev tools (`packages/core/src`). A single
`init(observable$, options)` call wires four parts around a Legend State observable:

- a floating **toolbar**. It can be dragged, and its minimized flag is read from
  `localStorage`.
- a side **panel**. It is shown, hidden and toggled, and it owns a lazily created container.
- a **state bridge**. It turns the observable's value into plain JSON snapshots
  (`JSON.parse(JSON.stringify(…))`), delivers one snapshot per change notification, and
  writes edits back with `set`.
- at most one **tree editor**. It is mounted into the panel once the editor root element
  can be found, with up to ten retries 16 ms apart.

A cleanup registry tears all four down in registration order.

Everything is modelled as pure functions over immutable datatypes:

- `Codec`: the snapshot (`JSON.stringify` as a map from store values to JSON trees, a
  throw, or `undefined`).
- `StateBridge`: subscription, delivery, `setData` and `destroy`.
- `Prefs` and `Cleanup`: the two halves of `shared-utils.ts`.
- `Panels` and `Toolbars`: the two UI classes. Only their container, visibility, drag and
  listener state is kept.
- `JsonEditorMount`: the theme lookup, the read-only restrictions, and the handle with its
  wrapper state.
- `DevTools`: one `init` session. It is a value, and every entry point is a function from
  session to session. These entry points are a toolbar click, a pointer event, a panel
  click, a store change, a timer firing, a React effect, a user edit and `destroy`. Each
  observable effect (mount, unmount, probe, warning, delivery, relay, store write,
  cleanup) is appended to the session's `trace`.
- `SessionProperties`: the session invariant and the properties proved over arbitrary
  input sequences.

Inputs the program does not compute itself become parameters:

- the store's value and whether `onChange` or `set` throws;
- whether the rendered panel template contains the editor root;
- the pointer coordinates and the container's bounding rectangle;
- the preference storage;
- the order in which timers, React effects and user events arrive.

## Model

| member | source | states |
|---|---|---|
| Codec.Snapshot | packages/core/src/state-bridge.ts:18-24 | `getSnapshot` yields `undefined` exactly when stringifying throws (a BigInt or a cycle anywhere) or the top-level value is skipped (undefined, a function, a symbol); a plain JSON value comes back unchanged; every snapshot is itself plain JSON |
| Codec.Serialise | packages/core/src/state-bridge.ts:20 | `JSON.stringify` yields `undefined` exactly for a skipped top-level value (undefined, a function, a symbol), always throws on a BigInt or a cycle, writes NaN and the infinities as `null`, and throws on nothing else but an array or an object (`Codec.ThrowsIff` pins which ones) |
| Codec.SerialiseEmbed | packages/core/src/state-bridge.ts:20 | stringifying any plain JSON tree gives back that same tree, so a snapshot of a snapshot is the snapshot |
| Codec.RepresentableRoundTrip | packages/core/src/state-bridge.ts:20 | a store value made only of JSON data survives the stringify/parse round trip unchanged |
| Codec.EmbedIsRepresentable | packages/core/src/state-bridge.ts:20 | whatever parse returns is plain JSON data |
| Codec.ThrowsIff | packages/core/src/state-bridge.ts:19-23 | stringify throws if and only if some node is a BigInt or a cycle, at any depth |
| Codec.ItemsPointwise | packages/core/src/state-bridge.ts:20 | an array keeps its length; a skipped element becomes `null` and every other element is serialised in place |
| Codec.FieldsKeepUnskipped | packages/core/src/state-bridge.ts:20 | an object keeps exactly its non-skipped properties, in enumeration order: the k-th member has the k-th kept property's key and carries the serialisation of that property's value |
| StateBridge.Create | packages/core/src/state-bridge.ts:27-38 | construction never fails: either the bridge is subscribed, or the warning is logged, and never both; the warning is logged exactly when `onChange` throws |
| StateBridge.Deliver | packages/core/src/state-bridge.ts:29-35 | with a subscription, the i-th change notification delivers the snapshot of the i-th emitted value, so the deliveries are exactly `Snapshots(emitted)`; without one, nothing is delivered |
| StateBridge.SetData | packages/core/src/state-bridge.ts:42-48 | a rejected `set` is logged and leaves the store as it was; an accepted one makes the store's snapshot equal to the data written |
| StateBridge.Destroy | packages/core/src/state-bridge.ts:49-54 | after `destroy` the bridge holds no subscription, and the dispose handle ran exactly when it held one |
| StateBridge.DisposeAtMostOnce | packages/core/src/state-bridge.ts:49-54 | over any number of `destroy` calls the dispose handle runs once if there was a subscription and never otherwise |
| Prefs.StorageKey | packages/core/src/ui/shared-utils.ts:5-14 | every storage key is `lsdt-` followed by the preference key |
| Prefs.StorageKeyInjective | packages/core/src/ui/shared-utils.ts:13-28 | distinct preference keys use distinct storage entries |
| Prefs.GetStoredBoolean | packages/core/src/ui/shared-utils.ts:13-17 | an absent entry gives the default; a present entry gives true exactly when its text is `"true"`, whatever the default |
| Prefs.SetStoredBoolean | packages/core/src/ui/shared-utils.ts:19-21 | after writing a boolean, reading it back gives that boolean for either default; no other entry changes |
| Prefs.GetStoredString | packages/core/src/ui/shared-utils.ts:23-25 | an absent entry and an empty string both give the default; any other stored string is returned |
| Prefs.SetStoredString | packages/core/src/ui/shared-utils.ts:27-29 | the entry holds the value afterwards and no other entry changes |
| Prefs.StringRoundTrip | packages/core/src/ui/shared-utils.ts:23-29 | reading back a written string gives it, except that an empty string reads as the default |
| Prefs.SetBooleanFrame | packages/core/src/ui/shared-utils.ts:13-21 | writing one boolean preference leaves every other preference reading as before |
| Prefs.SetStringFrame | packages/core/src/ui/shared-utils.ts:23-29 | writing one string preference leaves every other preference reading as before |
| Cleanup.Add | packages/core/src/ui/shared-utils.ts:37 | a registered thunk goes after all earlier ones, which keep their places; `Cleanup.RunAllInvokesEachInOrder` runs them in that order |
| Cleanup.RunAllInvokesEachInOrder | packages/core/src/ui/shared-utils.ts:38-45 | every registered thunk is invoked exactly once, in registration order, even when earlier ones throw |
| Cleanup.RunAllSplit | packages/core/src/ui/shared-utils.ts:39-45 | running n+1 thunks is running the first n and then the next one from the resulting state |
| Cleanup.Run | packages/core/src/ui/shared-utils.ts:38-47 | `run` agrees with the reference semantics, reports every thunk in order with whether it threw, and leaves the registry empty |
| Panels.OrString | packages/core/src/ui/panel.ts:17-20 | the option string is used when it is defined and non-empty, and otherwise the default |
| Panels.New | packages/core/src/ui/panel.ts:4-21 | a new panel is hidden with no container; root name, read-only flag and position come from the options, defaulting to `state$`, false and right |
| Panels.Show | packages/core/src/ui/panel.ts:31-45 | `show` makes the panel visible with a container, creates one only when there was none, re-renders the markup, and changes nothing else |
| Panels.Hide | packages/core/src/ui/panel.ts:47-51 | `hide` leaves the panel hidden with no container and nothing else changed |
| Panels.Toggle | packages/core/src/ui/panel.ts:23-29 | `toggle` flips visibility and leaves visibility and container in step |
| Panels.HasEditorRoot | packages/core/src/ui/panel.ts:57-59 | the editor root is found only in a container, and only when the rendered markup holds it |
| Panels.Unmount | packages/core/src/ui/panel.ts:88-95 | `unmount` removes the container and hides the panel from any state, and changes nothing else |
| Panels.UnmountIdempotent | packages/core/src/ui/panel.ts:88-95 | a second `unmount` does nothing |
| Panels.CloseRequested | packages/core/src/ui/panel.ts:77-86 | `onClose` is called only for the `close-panel` action, and always for it when a callback was given |
| Panels.NoContainerLeak | packages/core/src/ui/panel.ts:23-95 | over any sequence of show, hide, toggle and unmount, containers created minus containers removed equals the change in whether a container exists, and visibility stays in step with the container |
| Toolbars.New | packages/core/src/ui/toolbar.ts:4-18 | a new toolbar is unmounted, not dragging and not listening; its minimized flag is the stored `toolbar-minimized` preference (default false); its root name defaults to `state$` |
| Toolbars.Mount | packages/core/src/ui/toolbar.ts:20-32 | `mount` creates a container only when there is none, carrying the minimized class when minimized |
| Toolbars.MountIdempotent | packages/core/src/ui/toolbar.ts:20-21 | a second `mount` does nothing |
| Toolbars.ToggleRequested | packages/core/src/ui/toolbar.ts:53-62 | `onTogglePanel` is called only for the `toggle-panel` action, and always for it when a callback was given |
| Toolbars.MouseDown | packages/core/src/ui/toolbar.ts:64-77 | a press on a button starts nothing; any other press starts a drag, attaches the document listeners, marks the container as dragging and keeps the pointer's offset from the container's corner; placement, minimized class, panel flag, root name and callback are untouched |
| Toolbars.MouseMove | packages/core/src/ui/toolbar.ts:79-86 | outside a drag, or with no container, a move does nothing; during a drag it places the container at the pointer minus the kept offset |
| Toolbars.MouseUp | packages/core/src/ui/toolbar.ts:88-93 | a release always ends the drag, clears the dragging class and detaches the document listeners; the container stays where it was dropped, and the offsets, minimized class and everything else are untouched |
| Toolbars.SetPanelVisible | packages/core/src/ui/toolbar.ts:95-98 | only the panel-visible flag changes |
| Toolbars.Unmount | packages/core/src/ui/toolbar.ts:100-109 | `unmount` removes the container and every listener, and changes nothing else |
| Toolbars.UnmountIdempotent | packages/core/src/ui/toolbar.ts:100-109 | a second `unmount` does nothing |
| Toolbars.DragFollowsPointer | packages/core/src/ui/toolbar.ts:64-86 | a press and then a move shift the container by exactly the pointer's displacement from its rectangle's origin |
| Toolbars.Dispatch | packages/core/src/ui/toolbar.ts:46-93 | pointer events never change the panel-visible flag or whether a container exists; with no container and no document listeners they do nothing |
| Toolbars.MinimizedIsFixed | packages/core/src/ui/toolbar.ts:9-18 | no sequence of toolbar events changes the minimized flag, the root name or the toggle callback |
| Toolbars.TrackingOnlyWhileDragging | packages/core/src/ui/toolbar.ts:64-108 | over any sequence of events, the document listeners are attached only during a drag |
| JsonEditorMount.ThemeEntry | packages/core/src/ui/json-editor-mount.tsx:5-10 | the theme map has exactly the four own entries |
| JsonEditorMount.ResolveTheme | packages/core/src/ui/json-editor-mount.tsx:50 | each of the four names gives its theme, and every other name falls back to GitHub dark |
| JsonEditorMount.ResolveThemeAsWritten | packages/core/src/ui/json-editor-mount.tsx:50 | as written, the lookup agrees with the intended one except on names inherited from `Object.prototype`, which give the inherited member |
| JsonEditorMount.InheritedNameEscapesFallback | packages/core/src/ui/json-editor-mount.tsx:50 | the theme name `toString` gets no GitHub dark fallback as written, and does get it in the intended lookup |
| JsonEditorMount.RestrictionsFor | packages/core/src/ui/json-editor-mount.tsx:58-61 | edit, delete and add are restricted exactly when read-only; type selection is restricted (`true`) when read-only and left undefined otherwise |
| JsonEditorMount.ReadOnlyRestrictsAll | packages/core/src/ui/json-editor-mount.tsx:58-61 | read-only if and only if every affordance is restricted; writable if and only if none is |
| JsonEditorMount.Mount | packages/core/src/ui/json-editor-mount.tsx:104-131 | a fresh editor is mounted and shows the initial data, has no updater yet, and carries the given props |
| JsonEditorMount.RegisterUpdater | packages/core/src/ui/json-editor-mount.tsx:82-86 | the effect registers the updater only on a mounted root |
| JsonEditorMount.UpdateData | packages/core/src/ui/json-editor-mount.tsx:134-136 | before registration, or after unmount, an update is lost; otherwise the editor shows exactly the new data, and nothing else changes |
| JsonEditorMount.Edit | packages/core/src/ui/json-editor-mount.tsx:88-91 | an edit sets the wrapper's data to the edited value and forwards exactly that value to `onEdit`, once |
| JsonEditorMount.Destroy | packages/core/src/ui/json-editor-mount.tsx:137-142 | `destroy` unmounts the root exactly when it is still mounted |
| JsonEditorMount.DestroyIdempotent | packages/core/src/ui/json-editor-mount.tsx:137-142 | a second `destroy` unmounts nothing and changes nothing |
| JsonEditorMount.UpdatesAfterRegistration | packages/core/src/ui/json-editor-mount.tsx:126-136 | every update sent before the updater is registered is lost; once it is registered on a mounted root, the editor shows the last update |
| DevTools.Resolve | packages/core/src/index.ts:25-32 | each option is taken when defined, and otherwise defaults to not read-only, `githubDark`, `state$`, right and closed |
| DevTools.InitialData | packages/core/src/index.ts:72 | `?? {}` replaces both an undefined and a null snapshot with `{}`; the editor never starts on `null` |
| DevTools.Init | packages/core/src/index.ts:34-36 | `init` returns the inert handle exactly when `enabled` is explicitly false |
| DevTools.TryMount | packages/core/src/index.ts:60-83 | with no editor root, an attempt schedules the next retry while retries remain and otherwise gives up with a warning; with the root, it mounts one editor on the bridge's snapshot (or `{}`) unless one is already mounted |
| DevTools.TogglePanel | packages/core/src/index.ts:96-102 | `togglePanel` flips the panel's visibility and the toolbar's flag follows; closing drops the editor and the panel's container; the store, bridge and cleanup registry are untouched |
| DevTools.ShowPanel | packages/core/src/index.ts:54-85 | `showPanel` leaves the panel visible, tells the toolbar, and starts a new attempt chain |
| DevTools.HidePanel | packages/core/src/index.ts:87-94 | `hidePanel` destroys and forgets any editor (logging an unmount only if it was mounted), hides the panel, and tells the toolbar; timers are left alone |
| DevTools.Relay | packages/core/src/index.ts:114-117 | during a drag, or with no editor, a snapshot is dropped; otherwise it is relayed, and an editor with its updater registered then shows exactly that snapshot |
| DevTools.RelayAsWritten | packages/core/src/index.ts:115 | as written, the relay throws on every snapshot, because `getIsDragging` is not among the panel's methods |
| DevTools.StoreChanged | packages/core/src/index.ts:113-118 | a store change sets the store to the new value and leaves the bridge, panel, toolbar, timers and registry alone |
| DevTools.StoreChangedEffect | packages/core/src/index.ts:113-118 | with the corrected relay: without a subscription only the store changes; with one, exactly one snapshot of the new value is delivered, and outside a drag it is relayed, so an editor with its updater registered shows it |
| DevTools.UserEdit | packages/core/src/index.ts:76-78 | an edit is forwarded once to the bridge; an accepted write makes the store's snapshot equal to the edit, a rejected one is logged and leaves the store unchanged |
| DevTools.Destroy | packages/core/src/index.ts:133-135 | `destroy` empties the registry and leaves the store, the timers and the chain counter alone |
| DevTools.DestroyHandle | packages/core/src/index.ts:132-136 | destroying the inert handle does nothing; destroying an active one empties its registry |
| DevTools.RunAllKeeps | packages/core/src/index.ts:110-126 | no registered cleanup thunk touches the store, the timers or the chain counter |
| DevTools.Initial | packages/core/src/index.ts:38-126 | before `defaultOpen` is honoured, the panel exists hidden and empty, the toolbar is mounted and shows the panel closed, the four cleanup thunks are registered, nothing is scheduled, and the bridge is subscribed exactly when subscribing did not throw |
| SessionProperties.InitialEstablishes | packages/core/src/index.ts:38-126 | the session built before `defaultOpen` is honoured is live and satisfies the invariant |
| SessionProperties.InitEstablishes | packages/core/src/index.ts:38-130 | an enabled `init` yields a live session that satisfies the invariant: toolbar mounted, all four thunks registered, panel and toolbar in step, mounts and probes accounted for |
| SessionProperties.InitOpens | packages/core/src/index.ts:128-130 | after an enabled `init` the panel is visible, and the toolbar says so, exactly when `defaultOpen` is set; with the editor root present the editor is mounted at once on the store's snapshot (or `{}`), otherwise the first retry is scheduled; without `defaultOpen` nothing is shown, mounted or scheduled |
| SessionProperties.StepKeeps | packages/core/src/index.ts:54-135 | every entry point keeps the invariant, and a destroyed session stays destroyed |
| SessionProperties.StepAllKeeps | packages/core/src/index.ts:54-135 | any sequence of entry points keeps the invariant |
| SessionProperties.Reachable | packages/core/src/index.ts:21-137 | every session reachable from an enabled `init` satisfies the invariant |
| SessionProperties.AtMostOneEditor | packages/core/src/index.ts:70-91 | editor mounts and unmounts alternate, so at most one editor is ever mounted, and a mounted editor lives in a visible panel's container |
| SessionProperties.EditorHonoursOptions | packages/core/src/index.ts:74-82 | in every session satisfying the invariant, the mounted editor restricts every edit affordance exactly when the session is read-only and carries the session's root name; its theme is what the lookup as written gives for the session's theme name: the intended theme with its GitHub-dark fallback, except for a name inherited from `Object.prototype`, which yields that inherited member |
| SessionProperties.RetriesBounded | packages/core/src/index.ts:60-68 | each `showPanel` chain makes at most one attempt plus ten retries |
| SessionProperties.TryMountKeeps | packages/core/src/index.ts:60-83 | a `tryMount` attempt within its chain's budget keeps the invariant |
| SessionProperties.TryMountCounts | packages/core/src/index.ts:60-83 | an attempt records exactly one probe, of its own chain, counts a mount exactly when it mounts the editor, and never counts an unmount |
| SessionProperties.TryMountBudget | packages/core/src/index.ts:60-83 | an attempt schedules at most `retries` further attempts, all of them for its own chain |
| SessionProperties.ShowPanelKeeps | packages/core/src/index.ts:54-85 | `showPanel` keeps the invariant |
| SessionProperties.HidePanelKeeps | packages/core/src/index.ts:87-94 | `hidePanel` keeps the invariant |
| SessionProperties.StoreChangedKeeps | packages/core/src/index.ts:113-118 | a store change keeps the invariant |
| SessionProperties.UserEditKeeps | packages/core/src/index.ts:76-78 | a user edit keeps the invariant |
| SessionProperties.FireTimerKeeps | packages/core/src/index.ts:64 | a retry firing keeps the invariant |
| SessionProperties.DestroyLive | packages/core/src/index.ts:110-126 | on a live session, `destroy` runs the four thunks in registration order: toolbar, bridge, editor, panel |
| SessionProperties.DestroyOrdered | packages/core/src/index.ts:110-135 | on a live session, `destroy` appends exactly the teardown events of the toolbar, bridge, editor and panel in that order, and leaves everything unmounted, unsubscribed and hidden |
| SessionProperties.DestroyKeeps | packages/core/src/index.ts:133-135 | `destroy` keeps the invariant and leaves the session dead |
| SessionProperties.DestroyIdempotent | packages/core/src/index.ts:133-135 | a second `destroy` changes nothing |
| SessionProperties.DestroyIdempotentOnDead | packages/core/src/index.ts:133-135 | `destroy` on a destroyed session changes nothing |
| SessionProperties.ChangesDeliverInOrder | packages/core/src/index.ts:113-118 | over any sequence of store changes, `onSnapshot` receives the snapshot of each new value, one per change and in order, which is exactly what the bridge's `Deliver` returns for those values (none without a subscription) |
| SessionProperties.ChangesKeepBridge | packages/core/src/index.ts:113-118 | store changes never touch the bridge |
| SessionProperties.DragSuppressesRelay | packages/core/src/index.ts:115 | with the corrected relay: while the panel reports a drag, no number of store changes alters the editor |
| SessionProperties.ChangeReachesEditor | packages/core/src/index.ts:114-116 | with the corrected relay: outside a drag, a change reaches an editor with its updater registered, which then shows the snapshot of the new value |
| SessionProperties.RelayAsWrittenNeverForwards | packages/core/src/index.ts:115 | as written, no snapshot ever reaches a ready editor; the intended relay shows it |
| SessionProperties.ToggleFlips | packages/core/src/index.ts:96-102 | `togglePanel` flips the panel's visibility, the toolbar follows, and hiding drops the editor |
| SessionProperties.ShowMountsAtOnce | packages/core/src/index.ts:54-85 | showing a hidden panel whose markup holds the editor root mounts the editor at once, on the current snapshot (or `{}`), without scheduling a retry |
| SessionProperties.ShowWithoutRootSchedulesRetry | packages/core/src/index.ts:60-68 | without the editor root, showing mounts nothing and schedules the first retry of the new chain with nine retries left |

## Left out

- DOM creation, `innerHTML` rendering, CSS classes other than the modelled flags, and
  `escapeHtml` are browser plumbing. The panel template is reduced to one per-session flag:
  whether its markup contains `#lsdt-json-editor-root`. The template engine is not part of
  this model.
- React rendering, the error boundary, `collapse={2}` and the tree editor's internal editing
  are not modelled. `JsonEditorMount.Props` only records what the editor is given, with the theme as the lookup as written yields it.
- `console.warn` and `console.error` are not modelled as output. They appear as trace
  events (`SubscribeWarning`, `MountGaveUp`, `SetFailed`).
- Timers are not modelled with a clock. Retries sit in a first-in-first-out queue, because
  they all use the same 16 ms delay; the order in which they interleave with other input is
  arbitrary.
- The Legend State observable is external. Its value, whether `onChange` or `set` throws,
  and when it notifies are inputs. An applied edit's echo notification arrives as an
  ordinary `Change` input, so nothing forces it.
- Codec.Snapshot: numbers are integers. Floating point, `-0`, `toJSON` methods, the JSON
  text itself, and the reordering of integer-like object keys are not modelled.
- Toolbars.MouseDown: pixel coordinates and rectangles are integers. Fractional pixels and
  the CSS text of `left`/`top` are not modelled.
- Prefs.GetStoredBoolean: storage operations never throw. `localStorage` throwing (disabled
  storage, quota) is not modelled.
- DevTools.StoreChanged: the session relays through the corrected `Relay`, which takes
  the drag flag as an input. As written, every relay throws (see Findings).
- DevTools.ExecTask: the session's cleanup thunks never throw. Failure isolation is proved
  for the generic registry (`Cleanup.Run`) with an arbitrary thunk outcome.
- Several `init` calls on one page share element ids and document listeners. Only one
  session is modelled.

## Findings

| source | as written | input that shows it | evidently intended | confidence | as-written member | corrected member |
|---|---|---|---|---|---|---|
| packages/core/src/ui/json-editor-mount.tsx:50 | `themeMap[theme] ?? githubDarkTheme` indexes an object literal, so names inherited from `Object.prototype` find a non-nullish member and skip the fallback | `theme: 'toString'` (also `constructor`, `valueOf`, …) | any name that is not one of the four themes falls back to GitHub dark | high, not executed | JsonEditorMount.ResolveThemeAsWritten | JsonEditorMount.ResolveTheme |
| packages/core/src/index.ts:115 | `panel?.getIsDragging()` calls a method the `Panel` class does not define. The panel is never null at that point, so every relay throws a TypeError and no snapshot reaches the editor | any store change after the panel has been created | drop snapshots while a drag is in progress, and otherwise pass them to `updateData` | high, not executed | DevTools.RelayAsWritten | DevTools.Relay |
