/**
  `init` of `index.ts`: one dev-tools session wiring a toolbar, a panel, a state bridge and
  at most one mounted tree editor, with a cleanup registry for teardown. A session is a
  value; every entry point (a toolbar or panel click, a pointer event, a store change
  notification, a timer firing, a React effect, a user edit, `destroy`) is a function from
  session to session, and each observable effect is appended to the session's trace.
 */
module DevTools {
  import opened Optional
  import Codec
  import Prefs
  import Cleanup
  import StateBridge
  import Panels
  import Toolbars
  import JsonEditorMount

  /** The options of `init`; `None` is an option left undefined. */
  datatype Options = Options(
    enabled: Option<bool>,
    readOnly: Option<bool>,
    theme: Option<string>,
    rootName: Option<string>,
    position: Option<Panels.Position>,
    defaultOpen: Option<bool>)

  /** The options after destructuring with defaults (which replace `undefined` only). */
  datatype Config = Config(
    readOnly: bool,
    theme: string,
    rootName: string,
    position: Panels.Position,
    defaultOpen: bool)

  function Resolve(o: Options): (c: Config)
    ensures o.readOnly.Some? ==> c.readOnly == o.readOnly.value
    ensures o.theme.Some? ==> c.theme == o.theme.value
    ensures o.rootName.Some? ==> c.rootName == o.rootName.value
    ensures o.position.Some? ==> c.position == o.position.value
    ensures o.defaultOpen.Some? ==> c.defaultOpen == o.defaultOpen.value
    ensures o.readOnly.None? ==> !c.readOnly
    ensures o.theme.None? ==> c.theme == "githubDark"
    ensures o.rootName.None? ==> c.rootName == "state$"
    ensures o.position.None? ==> c.position == Panels.Right
    ensures o.defaultOpen.None? ==> !c.defaultOpen
  {
    Config(
      if o.readOnly.Some? then o.readOnly.value else false,
      if o.theme.Some? then o.theme.value else "githubDark",
      if o.rootName.Some? then o.rootName.value else "state$",
      if o.position.Some? then o.position.value else Panels.Right,
      if o.defaultOpen.Some? then o.defaultOpen.value else false)
  }

  /** `enabled` defaults to true; only an explicit `false` disables the tools. */
  predicate Enabled(o: Options) {
    o.enabled != Some(false)
  }

  /** The thunks registered with the cleanup registry, in registration order. */
  datatype Task = UnmountToolbar | DestroyBridge | DestroyEditor | UnmountPanel

  const AllTasks: seq<Task> := [UnmountToolbar, DestroyBridge, DestroyEditor, UnmountPanel]

  /** The retry budget of one `tryMount` chain: one attempt plus this many retries. */
  const MaxRetries: nat := 10

  /** A scheduled `tryMount(retries)` call of the chain started by the `chain`-th `showPanel`. */
  datatype Retry = Retry(chain: nat, retries: nat)

  /** Observable effects, in the order they happen. */
  datatype Event =
    | ToolbarMounted
    | SubscribeWarning
    | Probe(chain: nat, retries: nat)        // `tryMount` looked for the editor root
    | MountGaveUp(chain: nat)                // the "could not find" warning
    | EditorMounted(data: Codec.Json)
    | EditorUnmounted
    | SnapshotDelivered(snapshot: Option<Codec.Json>)   // the bridge called `onSnapshot`
    | Relayed(snapshot: Option<Codec.Json>)             // `onSnapshot` called `updateData`
    | EditForwarded(data: Codec.Json)
    | StoreSet(data: Codec.Json)
    | SetFailed
    | CleanupRan(task: Task)
    | ToolbarUnmounted
    | Disposed
    | PanelUnmounted

  datatype Session = Session(
    config: Config,
    markupHasRoot: bool,      // whether the panel template renders the editor root element
    store: Codec.Value,       // the observable's current value (owned by the host)
    panel: Panels.Panel,
    toolbar: Toolbars.Toolbar,
    bridge: StateBridge.Bridge,
    editor: Option<JsonEditorMount.Editor>,
    cleanup: Cleanup.Registry<Task>,
    pending: seq<Retry>,      // scheduled retries, in firing order (all use the same delay)
    chains: nat,              // how many `showPanel` calls have started a chain
    trace: seq<Event>)

  /** The handle `init` returns: a disabled one owns nothing. */
  datatype DevToolsHandle = Disabled | Active(session: Session)

  function Log(s: Session, es: seq<Event>): (r: Session)
    ensures r.trace == s.trace + es
    ensures r.(trace := s.trace) == s
  {
    s.(trace := s.trace + es)
  }

  /** `bridge?.getSnapshot() ?? {}`: `??` replaces both `undefined` and `null`. */
  function InitialData(snapshot: Option<Codec.Json>): (d: Codec.Json)
    ensures snapshot.None? || snapshot == Some(Codec.JNull) ==> d == Codec.JObject([])
    ensures snapshot.Some? && snapshot.value != Codec.JNull ==> d == snapshot.value
    ensures d != Codec.JNull
  {
    if snapshot.None? || snapshot.value == Codec.JNull then Codec.JObject([]) else snapshot.value
  }

  // ---------------------------------------------------------------------------------------
  // Showing and hiding

  /** One `tryMount(retries)` attempt of chain `chain`. Without the editor root it schedules
      `tryMount(retries - 1)` while retries remain and otherwise gives up with a warning; with
      it, it mounts an editor on the bridge's snapshot unless one is already mounted. */
  function TryMount(s: Session, chain: nat, retries: nat): (r: Session)
    ensures r.store == s.store && r.panel == s.panel && r.toolbar == s.toolbar
    ensures r.bridge == s.bridge && r.cleanup == s.cleanup && r.chains == s.chains
    ensures !Panels.HasEditorRoot(s.panel) ==> r.editor == s.editor
    ensures !Panels.HasEditorRoot(s.panel) && retries > 0 ==>
      r.pending == s.pending + [Retry(chain, retries - 1)] && r.trace == s.trace + [Probe(chain, retries)]
    ensures !Panels.HasEditorRoot(s.panel) && retries == 0 ==>
      r.pending == s.pending && r.trace == s.trace + [Probe(chain, retries), MountGaveUp(chain)]
    ensures Panels.HasEditorRoot(s.panel) && s.editor.Some? ==>
      r.editor == s.editor && r.pending == s.pending && r.trace == s.trace + [Probe(chain, retries)]
    ensures Panels.HasEditorRoot(s.panel) && s.editor.None? ==>
      var data := InitialData(Codec.Snapshot(s.store));
      && r.editor == Some(JsonEditorMount.Mount(data, s.config.readOnly, s.config.theme, s.config.rootName))
      && r.pending == s.pending
      && r.trace == s.trace + [Probe(chain, retries), EditorMounted(data)]
  {
    var probed := Log(s, [Probe(chain, retries)]);
    if !Panels.HasEditorRoot(s.panel) then
      if retries > 0 then probed.(pending := s.pending + [Retry(chain, retries - 1)])
      else Log(probed, [MountGaveUp(chain)])
    else if s.editor.Some? then probed
    else
      var data := InitialData(Codec.Snapshot(s.store));
      var e := JsonEditorMount.Mount(data, s.config.readOnly, s.config.theme, s.config.rootName);
      Log(probed.(editor := Some(e)), [EditorMounted(data)])
  }

  /** `showPanel`: show the panel, tell the toolbar, and start a new `tryMount` chain with the
      full retry budget. */
  function ShowPanel(s: Session): (r: Session)
    ensures r.panel.visible && r.toolbar.panelVisible
    ensures r.chains == s.chains + 1
    ensures r.store == s.store && r.bridge == s.bridge && r.cleanup == s.cleanup
  {
    var shown := Panels.Show(s.panel, s.markupHasRoot);
    var s1 := s.(panel := shown.panel,
                 toolbar := Toolbars.SetPanelVisible(s.toolbar, true),
                 chains := s.chains + 1);
    TryMount(s1, s.chains, MaxRetries)
  }

  /** `hidePanel`: destroy and forget any mounted editor, hide the panel, tell the toolbar. */
  function HidePanel(s: Session): (r: Session)
    ensures r.editor.None? && !r.panel.visible && r.panel.container.None? && !r.toolbar.panelVisible
    ensures r.pending == s.pending && r.chains == s.chains
    ensures r.store == s.store && r.bridge == s.bridge && r.cleanup == s.cleanup
    ensures r.toolbar.container == s.toolbar.container && r.toolbar.tracking == s.toolbar.tracking
    ensures r.trace == s.trace + (if s.editor.Some? && s.editor.value.mounted then [EditorUnmounted] else [])
  {
    var s1 :=
      if s.editor.Some? then
        var d := JsonEditorMount.Destroy(s.editor.value);
        Log(s.(editor := None), if d.unmounted then [EditorUnmounted] else [])
      else s;
    s1.(panel := Panels.Hide(s1.panel), toolbar := Toolbars.SetPanelVisible(s1.toolbar, false))
  }

  /** `togglePanel`: hide when the panel reports visible, show otherwise. */
  function TogglePanel(s: Session): (r: Session)
    ensures r.panel.visible == !s.panel.visible
    ensures r.toolbar.panelVisible == r.panel.visible
    ensures s.panel.visible ==> r.editor.None? && r.panel.container.None?
    ensures r.store == s.store && r.bridge == s.bridge && r.cleanup == s.cleanup
  {
    if s.panel.visible then HidePanel(s) else ShowPanel(s)
  }

  // ---------------------------------------------------------------------------------------
  // Snapshots, edits and timers

  /** The `onSnapshot` relay: a snapshot is dropped while the panel is being dragged (an input:
      the panel keeps no drag state); otherwise it goes to the mounted editor, if any. */
  function Relay(s: Session, snapshot: Option<Codec.Json>, dragging: bool): (r: Session)
    ensures dragging || s.editor.None? ==> r == s
    ensures !dragging && s.editor.Some? ==>
      && r.trace == s.trace + [Relayed(snapshot)]
      && r.editor.Some?
      && (s.editor.value.updater && s.editor.value.mounted ==> r.editor.value.data == snapshot)
      && (!s.editor.value.updater || !s.editor.value.mounted ==> r.editor == s.editor)
    ensures r.(editor := s.editor, trace := s.trace) == s
  {
    if dragging || s.editor.None? then s
    else Log(s.(editor := Some(JsonEditorMount.UpdateData(s.editor.value, snapshot))), [Relayed(snapshot)])
  }

  /** The public methods of the `Panel` class. */
  const PanelMethods: set<string> := {"toggle", "show", "hide", "isVisible", "getEditorRoot", "unmount"}

  /** The relay as written calls `panel?.getIsDragging()` on a panel that always exists.
      `getIsDragging` is not among the panel's methods, so the lookup yields `undefined` and
      the call throws a TypeError out of `onSnapshot`, whatever the snapshot: the outcome is
      `None`, and the session reached by the intended relay is never produced. */
  function RelayAsWritten(s: Session, snapshot: Option<Codec.Json>): (r: Option<Session>)
    ensures "getIsDragging" !in PanelMethods
    ensures r.None?
  {
    None
  }

  /** The store emits a change to value `v`: with a subscription, the bridge delivers exactly
      one snapshot of the new value, which the relay then handles. */
  function StoreChanged(s: Session, v: Codec.Value, dragging: bool): (r: Session)
    ensures r.store == v
    ensures r.bridge == s.bridge && r.panel == s.panel && r.toolbar == s.toolbar
    ensures r.pending == s.pending && r.chains == s.chains && r.cleanup == s.cleanup
  {
    if s.bridge.subscribed then
      var snapshot := Codec.Snapshot(v);
      Relay(Log(s.(store := v), [SnapshotDelivered(snapshot)]), snapshot, dragging)
    else s.(store := v)
  }

  /** What a store change does: without a subscription only the store changes; with one, the
      snapshot of the new value is delivered and, outside a drag, relayed to the editor. */
  lemma StoreChangedEffect(s: Session, v: Codec.Value, dragging: bool)
    ensures !s.bridge.subscribed ==> StoreChanged(s, v, dragging) == s.(store := v)
    ensures s.bridge.subscribed && (dragging || s.editor.None?) ==>
      && StoreChanged(s, v, dragging).editor == s.editor
      && StoreChanged(s, v, dragging).trace == s.trace + [SnapshotDelivered(Codec.Snapshot(v))]
    ensures s.bridge.subscribed && !dragging && s.editor.Some? ==>
      var r := StoreChanged(s, v, dragging);
      && r.trace == s.trace + [SnapshotDelivered(Codec.Snapshot(v)), Relayed(Codec.Snapshot(v))]
      && r.editor.Some?
      && (s.editor.value.updater && s.editor.value.mounted ==> r.editor.value.data == Codec.Snapshot(v))
  {
  }

  /** A user edit in the mounted editor: the wrapper keeps the value and forwards it, and the
      bridge asks the store to take it (`rejects` is the store's answer). */
  function UserEdit(s: Session, d: Codec.Json, rejects: bool): (r: Session)
    ensures s.editor.None? ==> r == s
    ensures r.bridge == s.bridge && r.panel == s.panel && r.pending == s.pending
    ensures s.editor.Some? ==> r.editor.Some? && r.editor.value.data == Some(d)
    ensures s.editor.Some? && rejects ==> r.store == s.store
    ensures s.editor.Some? && !rejects ==> Codec.Snapshot(r.store) == Some(d)
    ensures s.editor.Some? ==>
      r.trace == s.trace + [EditForwarded(d), if rejects then SetFailed else StoreSet(d)]
  {
    if s.editor.None? then s
    else
      var edited := JsonEditorMount.Edit(s.editor.value, d);
      var s1 := Log(s.(editor := Some(edited.editor)), [EditForwarded(d)]);
      var outcome := StateBridge.SetData(s1.store, d, rejects);
      Log(s1.(store := outcome.store), if outcome.failed then [SetFailed] else [StoreSet(d)])
  }

  /** The earliest scheduled retry fires (equal delays fire in scheduling order). */
  function FireTimer(s: Session): Session {
    if |s.pending| == 0 then s
    else TryMount(s.(pending := s.pending[1..]), s.pending[0].chain, s.pending[0].retries)
  }

  /** React runs the wrapper's effect, registering the updater. */
  function EditorEffects(s: Session): Session {
    if s.editor.Some? then s.(editor := Some(JsonEditorMount.RegisterUpdater(s.editor.value))) else s
  }

  // ---------------------------------------------------------------------------------------
  // Teardown

  /** One registered cleanup thunk. */
  function RunTask(s: Session, t: Task): Session {
    match t
    case UnmountToolbar =>
      Log(s.(toolbar := Toolbars.Unmount(s.toolbar)),
          [CleanupRan(t)] + (if s.toolbar.container.Some? then [ToolbarUnmounted] else []))
    case DestroyBridge =>
      var d := StateBridge.Destroy(s.bridge);
      Log(s.(bridge := d.bridge), [CleanupRan(t)] + (if d.disposed then [Disposed] else []))
    case DestroyEditor =>
      if s.editor.Some? then
        var d := JsonEditorMount.Destroy(s.editor.value);
        Log(s.(editor := None), [CleanupRan(t)] + (if d.unmounted then [EditorUnmounted] else []))
      else Log(s, [CleanupRan(t)])
    case UnmountPanel =>
      Log(s.(panel := Panels.Unmount(s.panel)),
          [CleanupRan(t)] + (if s.panel.container.Some? then [PanelUnmounted] else []))
  }

  /** The thunks as the registry runs them: none of them throws. */
  function ExecTask(s: Session, t: Task): (Session, bool) {
    (RunTask(s, t), false)
  }

  /** `destroy`: `cleanup.run()`. */
  function Destroy(s: Session): (r: Session)
    ensures r.cleanup.fns == []
    ensures r.pending == s.pending && r.chains == s.chains && r.store == s.store
  {
    var ran := Cleanup.RunAll(s, s.cleanup.fns, ExecTask);
    RunAllKeeps(s, s.cleanup.fns);
    ran.0.(cleanup := Cleanup.Registry([]))
  }

  /** No cleanup thunk touches the store, the timers or the chain counter. */
  lemma {:induction false} RunAllKeeps(s: Session, ts: seq<Task>)
    ensures Cleanup.RunAll(s, ts, ExecTask).0.pending == s.pending
    ensures Cleanup.RunAll(s, ts, ExecTask).0.chains == s.chains
    ensures Cleanup.RunAll(s, ts, ExecTask).0.store == s.store
    decreases |ts|
  {
    if |ts| > 0 {
      RunAllKeeps(RunTask(s, ts[0]), ts[1..]);
    }
  }

  // ---------------------------------------------------------------------------------------
  // Entry points

  datatype Input =
    | ToolbarClick(action: Option<string>)
    | ToolbarPress(onButton: bool, x: int, y: int, rectLeft: int, rectTop: int)
    | PointerMove(x: int, y: int)
    | PointerRelease
    | PanelClick(action: Option<string>)
    | Change(value: Codec.Value, panelDragging: bool)
    | TimerFires
    | EffectsRun
    | Edit(data: Codec.Json, storeRejects: bool)
    | DestroyCall

  /** One input, delivered only where a listener for it exists: toolbar clicks and presses
      through the toolbar's container, pointer moves and releases through the document
      listeners of a drag, panel clicks through the panel's container, and edits through a
      mounted editor. */
  function Step(s: Session, i: Input): Session {
    match i
    case ToolbarClick(a) =>
      if s.toolbar.container.Some? && Toolbars.ToggleRequested(s.toolbar, a) then TogglePanel(s) else s
    case ToolbarPress(b, x, y, l, t) =>
      s.(toolbar := Toolbars.Dispatch(s.toolbar, Toolbars.PressEvent(b, x, y, l, t)))
    case PointerMove(x, y) => s.(toolbar := Toolbars.Dispatch(s.toolbar, Toolbars.MoveEvent(x, y)))
    case PointerRelease => s.(toolbar := Toolbars.Dispatch(s.toolbar, Toolbars.ReleaseEvent))
    case PanelClick(a) =>
      if s.panel.container.Some? && Panels.CloseRequested(s.panel, a) then HidePanel(s) else s
    case Change(v, d) => StoreChanged(s, v, d)
    case TimerFires => FireTimer(s)
    case EffectsRun => EditorEffects(s)
    case Edit(d, rejects) =>
      if s.editor.Some? && s.editor.value.mounted then UserEdit(s, d, rejects) else s
    case DestroyCall => Destroy(s)
  }

  function StepAll(s: Session, inputs: seq<Input>): Session
    decreases |inputs|
  {
    if |inputs| == 0 then s else StepAll(Step(s, inputs[0]), inputs[1..])
  }

  /** The session `init` builds before honouring `defaultOpen`: panel created, toolbar
      mounted, bridge subscribed (or warned), all four cleanup thunks registered in order. */
  function Initial(store: Codec.Value, c: Config, prefs: Prefs.Storage, subscribeThrows: bool, markupHasRoot: bool)
    : (s: Session)
    ensures s.config == c && s.store == store && s.markupHasRoot == markupHasRoot
    ensures !s.panel.visible && s.panel.container.None? && s.editor.None?
    ensures s.toolbar.container.Some? && !s.toolbar.panelVisible && !s.toolbar.tracking
    ensures s.cleanup.fns == AllTasks && s.pending == [] && s.chains == 0
    ensures s.bridge.subscribed <==> !subscribeThrows
  {
    var panel := Panels.New(Panels.PanelOptions(Some(c.rootName), Some(c.readOnly), Some(c.position), true));
    var toolbar := Toolbars.Mount(Toolbars.New(prefs, Some(c.rootName), true));
    var cleanup := Cleanup.Add(Cleanup.Empty(), UnmountToolbar);
    var created := StateBridge.Create(subscribeThrows);
    var cleanup := Cleanup.Add(Cleanup.Add(Cleanup.Add(cleanup, DestroyBridge), DestroyEditor), UnmountPanel);
    Session(c, markupHasRoot, store, panel, toolbar, created.bridge, None, cleanup, [], 0,
            [ToolbarMounted] + (if created.warned then [SubscribeWarning] else []))
  }

  /** `init`. `prefs` is the preference storage, `subscribeThrows` the store's answer to
      `onChange`, `markupHasRoot` whether the panel template renders the editor root. */
  function Init(store: Codec.Value, o: Options, prefs: Prefs.Storage, subscribeThrows: bool, markupHasRoot: bool)
    : (h: DevToolsHandle)
    ensures !Enabled(o) <==> h.Disabled?
  {
    if !Enabled(o) then Disabled
    else
      var s := Initial(store, Resolve(o), prefs, subscribeThrows, markupHasRoot);
      Active(if Resolve(o).defaultOpen then ShowPanel(s) else s)
  }


  /** The handle's `destroy`: nothing at all for a disabled handle. */
  function DestroyHandle(h: DevToolsHandle): (r: DevToolsHandle)
    ensures h.Disabled? ==> r == Disabled
    ensures h.Active? ==> r.Active? && r.session.cleanup.fns == []
  {
    match h
    case Disabled => Disabled
    case Active(s) => Active(Destroy(s))
  }
}
