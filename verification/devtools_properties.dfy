/**
  Properties of the session wiring of `index.ts`: a state invariant and trace bookkeeping
  preserved by every entry point, and the promises that follow from them (at most one
  editor at a time, at most eleven attempts per `tryMount` chain, ordered and idempotent
  teardown, one delivery per change notification, no relay during a drag).
 */
module SessionProperties {
  import opened Optional
  import Codec
  import Cleanup
  import StateBridge
  import Panels
  import Toolbars
  import JsonEditorMount
  import opened DevTools

  // ---------------------------------------------------------------------------------------
  // Counting events in a trace

  datatype Kind = KMounted | KUnmounted | KProbe(chain: nat)

  predicate Is(e: Event, k: Kind) {
    match k
    case KMounted => e.EditorMounted?
    case KUnmounted => e.EditorUnmounted?
    case KProbe(c) => e.Probe? && e.chain == c
  }

  function Count(t: seq<Event>, k: Kind): nat
    decreases |t|
  {
    if |t| == 0 then 0 else Count(t[..|t| - 1], k) + (if Is(t[|t| - 1], k) then 1 else 0)
  }

  lemma {:induction false} CountAppend(a: seq<Event>, b: seq<Event>, k: Kind)
    ensures Count(a + b, k) == Count(a, k) + Count(b, k)
    decreases |b|
  {
    if |b| == 0 {
      assert a + b == a;
    } else {
      assert (a + b)[..|a + b| - 1] == a + b[..|b| - 1];
      assert (a + b)[|a + b| - 1] == b[|b| - 1];
      CountAppend(a, b[..|b| - 1], k);
    }
  }

  lemma CountOne(e: Event, k: Kind)
    ensures Count([e], k) == if Is(e, k) then 1 else 0
  {
    assert [e][..0] == [];
  }

  lemma CountTwo(e1: Event, e2: Event, k: Kind)
    ensures Count([e1, e2], k) == (if Is(e1, k) then 1 else 0) + (if Is(e2, k) then 1 else 0)
  {
    assert [e1, e2][..1] == [e1];
    CountOne(e1, k);
  }

  /** The attempts still owed to chain `c` by the scheduled retries. */
  function Budget(p: seq<Retry>, c: nat): nat
    decreases |p|
  {
    if |p| == 0 then 0 else (if p[0].chain == c then p[0].retries + 1 else 0) + Budget(p[1..], c)
  }

  lemma {:induction false} BudgetAppend(p: seq<Retry>, r: Retry, c: nat)
    ensures Budget(p + [r], c) == Budget(p, c) + (if r.chain == c then r.retries + 1 else 0)
    decreases |p|
  {
    if |p| == 0 {
      assert [r][1..] == [];
    } else {
      assert (p + [r])[1..] == p[1..] + [r];
      BudgetAppend(p[1..], r, c);
    }
  }

  // ---------------------------------------------------------------------------------------
  // The invariant

  /** Before `destroy`: every thunk registered, the toolbar mounted and in step with the panel. */
  predicate Live(s: Session) {
    && s.cleanup.fns == AllTasks
    && s.toolbar.container.Some?
    && s.toolbar.panelVisible == s.panel.visible
  }

  /** After `destroy`: nothing registered, mounted, subscribed or listening. */
  predicate Dead(s: Session) {
    && s.cleanup.fns == []
    && s.toolbar.container.None?
    && !s.toolbar.tracking
    && !s.bridge.subscribed
    && s.editor.None?
    && s.panel.container.None?
  }

  /** An editor mounted with the session's `readOnly`, `theme` and `rootName`. */
  predicate Configured(e: JsonEditorMount.Editor, c: Config) {
    e.readOnly == c.readOnly && e.themeName == c.theme && e.rootName == c.rootName
  }

  predicate Wf(s: Session) {
    && Panels.Consistent(s.panel)
    && (s.editor.Some? ==> s.editor.value.mounted && s.panel.container.Some?)
    && (s.editor.Some? ==> Configured(s.editor.value, s.config))
    && (forall k | 0 <= k < |s.pending| :: s.pending[k].retries < MaxRetries)
    && (Live(s) || Dead(s))
  }

  /** Editor mounts and unmounts alternate. */
  predicate MountBooks(s: Session) {
    Count(s.trace, KMounted) == Count(s.trace, KUnmounted) + (if s.editor.Some? then 1 else 0)
  }

  /** Attempts made by each chain plus attempts still scheduled for it stay within one attempt
      plus `MaxRetries` retries, with `extra` more attempts allowed to chain `chain`; chains
      not started yet have neither. */
  ghost predicate ProbeBooks(s: Session, chain: nat, extra: nat) {
    && (forall c: nat ::
          Count(s.trace, KProbe(c)) + Budget(s.pending, c) + (if c == chain then extra else 0) <= MaxRetries + 1)
    && (forall c: nat | c >= s.chains ::
          Count(s.trace, KProbe(c)) + Budget(s.pending, c) == 0)
  }

  ghost predicate Inv(s: Session) {
    Wf(s) && MountBooks(s) && ProbeBooks(s, 0, 0)
  }

  // ---------------------------------------------------------------------------------------
  // Each entry point keeps the invariant

  /** A `tryMount` attempt keeps the invariant when its chain has the attempt in its budget. */
  lemma TryMountKeeps(s: Session, chain: nat, retries: nat)
    requires Wf(s) && MountBooks(s)
    requires chain < s.chains && retries <= MaxRetries
    requires ProbeBooks(s, chain, retries + 1)
    ensures Inv(TryMount(s, chain, retries))
  {
    TryMountCounts(s, chain, retries);
    TryMountBudget(s, chain, retries);
  }

  /** An attempt records one probe of its own chain, and a mount exactly when it mounts. */
  lemma TryMountCounts(s: Session, chain: nat, retries: nat)
    ensures forall c: nat :: Count(TryMount(s, chain, retries).trace, KProbe(c))
                          == Count(s.trace, KProbe(c)) + (if c == chain then 1 else 0)
    ensures Count(TryMount(s, chain, retries).trace, KMounted)
         == Count(s.trace, KMounted) + (if TryMount(s, chain, retries).editor != s.editor then 1 else 0)
    ensures Count(TryMount(s, chain, retries).trace, KUnmounted) == Count(s.trace, KUnmounted)
  {
    var r := TryMount(s, chain, retries);
    var added := r.trace[|s.trace|..];
    assert r.trace == s.trace + added;
    if !Panels.HasEditorRoot(s.panel) && retries > 0 {
      assert added == [Probe(chain, retries)];
    } else if !Panels.HasEditorRoot(s.panel) {
      assert added == [Probe(chain, retries), MountGaveUp(chain)];
    } else if s.editor.Some? {
      assert added == [Probe(chain, retries)];
    } else {
      assert added == [Probe(chain, retries), EditorMounted(InitialData(Codec.Snapshot(s.store)))];
    }
    forall k: Kind ensures Count(r.trace, k) == Count(s.trace, k) + Count(added, k) {
      CountAppend(s.trace, added, k);
    }
    forall c: nat ensures Count(added, KProbe(c)) == (if c == chain then 1 else 0) {
      if |added| == 1 { CountOne(added[0], KProbe(c)); } else { CountTwo(added[0], added[1], KProbe(c)); }
    }
    if |added| == 1 { CountOne(added[0], KMounted); CountOne(added[0], KUnmounted); }
    else { CountTwo(added[0], added[1], KMounted); CountTwo(added[0], added[1], KUnmounted); }
  }

  /** An attempt schedules at most `retries` further attempts, all for its own chain. */
  lemma TryMountBudget(s: Session, chain: nat, retries: nat)
    ensures forall c: nat :: Budget(TryMount(s, chain, retries).pending, c)
                          <= Budget(s.pending, c) + (if c == chain then retries else 0)
  {
    var r := TryMount(s, chain, retries);
    forall c: nat ensures Budget(r.pending, c) <= Budget(s.pending, c) + (if c == chain then retries else 0) {
      if r.pending != s.pending {
        BudgetAppend(s.pending, Retry(chain, retries - 1), c);
      }
    }
  }

  /** Showing the panel opens chain `s.chains` with a full budget: the session handed to the
      first attempt keeps the invariant with `MaxRetries + 1` attempts reserved for that chain. */
  lemma ChainOpens(s: Session, s1: Session)
    requires Inv(s) && Live(s)
    requires s1 == s.(panel := Panels.Show(s.panel, s.markupHasRoot).panel,
                      toolbar := Toolbars.SetPanelVisible(s.toolbar, true),
                      chains := s.chains + 1)
    ensures Wf(s1) && MountBooks(s1) && ProbeBooks(s1, s.chains, MaxRetries + 1)
  {
    assert Count(s.trace, KProbe(s.chains)) + Budget(s.pending, s.chains) == 0;
  }

  lemma ShowPanelKeeps(s: Session)
    requires Inv(s) && Live(s)
    ensures Inv(ShowPanel(s))
  {
    var s1 := s.(panel := Panels.Show(s.panel, s.markupHasRoot).panel,
                 toolbar := Toolbars.SetPanelVisible(s.toolbar, true),
                 chains := s.chains + 1);
    ChainOpens(s, s1);
    TryMountKeeps(s1, s.chains, MaxRetries);
  }

  lemma HidePanelKeeps(s: Session)
    requires Inv(s)
    ensures Inv(HidePanel(s))
  {
    var r := HidePanel(s);
    var added := if s.editor.Some? && s.editor.value.mounted then [EditorUnmounted] else [];
    forall k: Kind ensures Count(r.trace, k) == Count(s.trace, k) + Count(added, k) {
      CountAppend(s.trace, added, k);
      if added != [] { CountOne(EditorUnmounted, k); }
    }
  }

  /** A step that touches only the store, the editor's data and the trace, and adds no counted
      event to the trace, keeps the invariant. */
  lemma BooksCarryOver(s: Session, r: Session)
    requires Inv(s)
    requires r.config == s.config && r.panel == s.panel && r.toolbar == s.toolbar
    requires r.bridge == s.bridge && r.cleanup == s.cleanup
    requires r.pending == s.pending && r.chains == s.chains
    requires r.editor.Some? <==> s.editor.Some?
    requires r.editor.Some? ==> r.editor.value.(data := s.editor.value.data) == s.editor.value
    requires forall k: Kind :: Count(r.trace, k) == Count(s.trace, k)
    ensures Inv(r)
  {
  }

  /** A store change adds no counted event to the trace. */
  lemma StoreChangedCounts(s: Session, v: Codec.Value, dragging: bool)
    ensures forall k: Kind :: Count(StoreChanged(s, v, dragging).trace, k) == Count(s.trace, k)
  {
    var r := StoreChanged(s, v, dragging);
    StoreChangedEffect(s, v, dragging);
    if s.bridge.subscribed {
      var snapshot := Codec.Snapshot(v);
      var added := if dragging || s.editor.None? then [SnapshotDelivered(snapshot)]
                   else [SnapshotDelivered(snapshot), Relayed(snapshot)];
      assert r.trace == s.trace + added;
      forall k: Kind ensures Count(r.trace, k) == Count(s.trace, k) {
        CountAppend(s.trace, added, k);
        if |added| == 1 { CountOne(added[0], k); } else { CountTwo(added[0], added[1], k); }
      }
    }
  }

  /** A store change leaves the configuration alone and changes at most the editor's data. */
  lemma StoreChangedEditor(s: Session, v: Codec.Value, dragging: bool)
    ensures StoreChanged(s, v, dragging).config == s.config
    ensures StoreChanged(s, v, dragging).editor.Some? <==> s.editor.Some?
    ensures StoreChanged(s, v, dragging).editor.Some? ==>
      StoreChanged(s, v, dragging).editor.value.(data := s.editor.value.data) == s.editor.value
  {
  }

  lemma StoreChangedKeeps(s: Session, v: Codec.Value, dragging: bool)
    requires Inv(s)
    ensures Inv(StoreChanged(s, v, dragging))
  {
    StoreChangedCounts(s, v, dragging);
    StoreChangedEditor(s, v, dragging);
    BooksCarryOver(s, StoreChanged(s, v, dragging));
  }

  lemma UserEditKeeps(s: Session, d: Codec.Json, rejects: bool)
    requires Inv(s)
    ensures Inv(UserEdit(s, d, rejects))
  {
    var r := UserEdit(s, d, rejects);
    if s.editor.Some? {
      var added := [EditForwarded(d), if rejects then SetFailed else StoreSet(d)];
      forall k: Kind ensures Count(r.trace, k) == Count(s.trace, k) {
        CountAppend(s.trace, added, k);
        CountTwo(added[0], added[1], k);
      }
    }
  }

  lemma FireTimerKeeps(s: Session)
    requires Inv(s)
    ensures Inv(FireTimer(s))
  {
    if |s.pending| > 0 {
      var head := s.pending[0];
      var s1 := s.(pending := s.pending[1..]);
      assert Budget(s.pending, head.chain) > 0;
      forall c: nat ensures Budget(s.pending, c) == Budget(s1.pending, c) + (if c == head.chain then head.retries + 1 else 0) {
      }
      assert ProbeBooks(s1, head.chain, head.retries + 1);
      TryMountKeeps(s1, head.chain, head.retries);
    }
  }

  /** The four cleanup thunks of a live session, run in registration order. */
  lemma DestroyLive(s: Session)
    requires Live(s)
    ensures Destroy(s) == RunTask(RunTask(RunTask(RunTask(s, UnmountToolbar), DestroyBridge), DestroyEditor), UnmountPanel)
                            .(cleanup := Cleanup.Registry([]))
  {
    var ts := s.cleanup.fns;
    var s1 := RunTask(s, UnmountToolbar);
    var s2 := RunTask(s1, DestroyBridge);
    var s3 := RunTask(s2, DestroyEditor);
    var s4 := RunTask(s3, UnmountPanel);
    assert ts[1..] == [DestroyBridge, DestroyEditor, UnmountPanel];
    assert ts[1..][1..] == [DestroyEditor, UnmountPanel];
    assert ts[1..][1..][1..] == [UnmountPanel];
    assert ts[1..][1..][1..][1..] == [];
    assert Cleanup.RunAll(s4, ts[1..][1..][1..][1..], ExecTask).0 == s4;
    assert Cleanup.RunAll(s3, ts[1..][1..][1..], ExecTask).0 == s4;
    assert Cleanup.RunAll(s2, ts[1..][1..], ExecTask).0 == s4;
    assert Cleanup.RunAll(s1, ts[1..], ExecTask).0 == s4;
    assert Cleanup.RunAll(s, ts, ExecTask).0 == s4;
  }

  /** After `destroy` the registry is empty, so a second `destroy` changes nothing. */
  lemma DestroyIdempotent(s: Session)
    ensures Destroy(Destroy(s)) == Destroy(s)
  {
    var d := Destroy(s);
    assert Cleanup.RunAll(d, d.cleanup.fns, ExecTask).0 == d;
  }

  /** The trace `destroy` appends to a live session: the toolbar is unmounted, then the bridge
      disposes its subscription, then any editor is unmounted, then the panel is unmounted,
      each thunk's effects right after it runs. */
  function TeardownEvents(s: Session): seq<Event> {
    ToolbarTeardown(s) + BridgeTeardown(s) + EditorTeardown(s) + PanelTeardown(s)
  }

  function ToolbarTeardown(s: Session): seq<Event> {
    [CleanupRan(UnmountToolbar)] + (if s.toolbar.container.Some? then [ToolbarUnmounted] else [])
  }

  function BridgeTeardown(s: Session): seq<Event> {
    [CleanupRan(DestroyBridge)] + (if s.bridge.subscribed then [Disposed] else [])
  }

  function EditorTeardown(s: Session): seq<Event> {
    [CleanupRan(DestroyEditor)] + (if s.editor.Some? && s.editor.value.mounted then [EditorUnmounted] else [])
  }

  function PanelTeardown(s: Session): seq<Event> {
    [CleanupRan(UnmountPanel)] + (if s.panel.container.Some? then [PanelUnmounted] else [])
  }

  /** `destroy` on a live session runs the four thunks in registration order and leaves
      nothing mounted, subscribed or registered. */
  lemma DestroyOrdered(s: Session)
    requires Live(s)
    ensures Destroy(s).trace == s.trace + TeardownEvents(s)
    ensures Dead(Destroy(s))
    ensures !Destroy(s).panel.visible
  {
    DestroyLive(s);
    TeardownTrace(s);
  }

  /** The trace the four thunks leave behind, one thunk at a time. */
  lemma TeardownTrace(s: Session)
    ensures RunTask(RunTask(RunTask(RunTask(s, UnmountToolbar), DestroyBridge), DestroyEditor), UnmountPanel).trace
         == s.trace + TeardownEvents(s)
  {
    var t1, t2, t3, t4 := ToolbarTeardown(s), BridgeTeardown(s), EditorTeardown(s), PanelTeardown(s);
    var s1 := RunTask(s, UnmountToolbar);
    var s2 := RunTask(s1, DestroyBridge);
    var s3 := RunTask(s2, DestroyEditor);
    var s4 := RunTask(s3, UnmountPanel);
    assert s1.trace == s.trace + t1;
    assert s2.trace == s1.trace + t2;
    assert s3.trace == s2.trace + t3;
    assert s4.trace == s3.trace + t4;
    ConcatAssoc(s.trace, t1, t2);
    ConcatAssoc(s.trace, t1 + t2, t3);
    ConcatAssoc(s.trace, t1 + t2 + t3, t4);
  }

  /** Events that are neither editor mounts or unmounts nor attempts. */
  predicate Neutral(e: Event) {
    !e.EditorMounted? && !e.EditorUnmounted? && !e.Probe?
  }

  lemma {:induction false} NeutralCount(t: seq<Event>, k: Kind)
    requires forall i | 0 <= i < |t| :: Neutral(t[i])
    ensures Count(t, k) == 0
    decreases |t|
  {
    if |t| > 0 {
      NeutralCount(t[..|t| - 1], k);
    }
  }

  lemma TeardownCounts(s: Session, k: Kind)
    ensures Count(TeardownEvents(s), k)
         == if k.KUnmounted? && s.editor.Some? && s.editor.value.mounted then 1 else 0
  {
    var t1, t2, t3, t4 := ToolbarTeardown(s), BridgeTeardown(s), EditorTeardown(s), PanelTeardown(s);
    CountAppend(t1 + t2 + t3, t4, k);
    CountAppend(t1 + t2, t3, k);
    CountAppend(t1, t2, k);
    NeutralCount(t1, k);
    NeutralCount(t2, k);
    NeutralCount(t4, k);
    CountAppend([CleanupRan(DestroyEditor)], t3[1..], k);
    assert t3 == [CleanupRan(DestroyEditor)] + t3[1..];
    CountOne(CleanupRan(DestroyEditor), k);
    if |t3| == 2 { CountOne(EditorUnmounted, k); assert t3[1..] == [EditorUnmounted]; }
  }

  lemma DestroyKeeps(s: Session)
    requires Inv(s)
    ensures Inv(Destroy(s)) && Dead(Destroy(s))
  {
    if Live(s) {
      DestroyOrdered(s);
      var r := Destroy(s);
      forall k: Kind ensures Count(r.trace, k)
          == Count(s.trace, k) + (if k.KUnmounted? && s.editor.Some? then 1 else 0) {
        CountAppend(s.trace, TeardownEvents(s), k);
        TeardownCounts(s, k);
      }
    } else {
      DestroyIdempotentOnDead(s);
    }
  }

  lemma DestroyIdempotentOnDead(s: Session)
    requires Dead(s)
    ensures Destroy(s) == s
  {
    assert Cleanup.RunAll(s, s.cleanup.fns, ExecTask).0 == s;
  }

  /** A press, move or release on the toolbar keeps the invariant, and leaves a dead session dead. */
  lemma PointerKeeps(s: Session, e: Toolbars.ToolbarEvent)
    requires Inv(s)
    requires e.PressEvent? || e.MoveEvent? || e.ReleaseEvent?
    ensures Inv(s.(toolbar := Toolbars.Dispatch(s.toolbar, e)))
    ensures Dead(s) ==> Dead(s.(toolbar := Toolbars.Dispatch(s.toolbar, e)))
  {
  }

  /** Registering the editor's updater keeps the invariant, and leaves a dead session dead. */
  lemma EffectsKeep(s: Session)
    requires Inv(s)
    ensures Inv(EditorEffects(s))
    ensures Dead(s) ==> Dead(EditorEffects(s))
  {
  }

  lemma StepKeeps(s: Session, i: Input)
    requires Inv(s)
    ensures Inv(Step(s, i))
    ensures Dead(s) ==> Dead(Step(s, i))
  {
    match i
    case ToolbarClick(a) =>
      if s.toolbar.container.Some? && Toolbars.ToggleRequested(s.toolbar, a) {
        if s.panel.visible { HidePanelKeeps(s); } else { ShowPanelKeeps(s); }
      }
    case ToolbarPress(b, x, y, l, tp) => PointerKeeps(s, Toolbars.PressEvent(b, x, y, l, tp));
    case PointerMove(x, y) => PointerKeeps(s, Toolbars.MoveEvent(x, y));
    case PointerRelease => PointerKeeps(s, Toolbars.ReleaseEvent);
    case PanelClick(a) =>
      if s.panel.container.Some? && Panels.CloseRequested(s.panel, a) { HidePanelKeeps(s); }
    case Change(v, d) => StoreChangedKeeps(s, v, d);
    case TimerFires => FireTimerKeeps(s);
    case EffectsRun => EffectsKeep(s);
    case Edit(d, rejects) => UserEditKeeps(s, d, rejects);
    case DestroyCall =>
      DestroyKeeps(s);
      if Dead(s) { DestroyIdempotentOnDead(s); }
  }

  lemma {:induction false} StepAllKeeps(s: Session, inputs: seq<Input>)
    requires Inv(s)
    ensures Inv(StepAll(s, inputs))
    decreases |inputs|
  {
    if |inputs| > 0 {
      StepKeeps(s, inputs[0]);
      StepAllKeeps(Step(s, inputs[0]), inputs[1..]);
    }
  }

  /** The session built before `defaultOpen` is honoured is live and satisfies the
      invariant: nothing mounted, probed or scheduled yet. */
  lemma InitialEstablishes(store: Codec.Value, c: Config, prefs: map<string, string>, subscribeThrows: bool, markupHasRoot: bool)
    ensures Inv(Initial(store, c, prefs, subscribeThrows, markupHasRoot))
    ensures Live(Initial(store, c, prefs, subscribeThrows, markupHasRoot))
  {
    var s := Initial(store, c, prefs, subscribeThrows, markupHasRoot);
    forall k: Kind ensures Count(s.trace, k) == 0 {
      if |s.trace| == 2 {
        assert s.trace == [ToolbarMounted, SubscribeWarning];
        CountTwo(ToolbarMounted, SubscribeWarning, k);
      } else {
        assert s.trace == [ToolbarMounted];
        CountOne(ToolbarMounted, k);
      }
    }
  }

  lemma InitEstablishes(store: Codec.Value, o: Options, prefs: map<string, string>, subscribeThrows: bool, markupHasRoot: bool)
    requires Enabled(o)
    ensures Inv(Init(store, o, prefs, subscribeThrows, markupHasRoot).session)
    ensures Live(Init(store, o, prefs, subscribeThrows, markupHasRoot).session)
  {
    var s := Initial(store, Resolve(o), prefs, subscribeThrows, markupHasRoot);
    InitialEstablishes(store, Resolve(o), prefs, subscribeThrows, markupHasRoot);
    if Resolve(o).defaultOpen {
      ShowPanelKeeps(s);
    }
  }

  /** `defaultOpen` shows the panel during `init`: the panel is visible (and the toolbar says
      so) exactly when it is set. When the panel markup holds the editor root, the editor is
      mounted at once on the store's snapshot (or `{}`); otherwise the first retry is
      scheduled. Without `defaultOpen` nothing is shown, mounted or scheduled. */
  lemma InitOpens(store: Codec.Value, o: Options, prefs: map<string, string>, subscribeThrows: bool, markupHasRoot: bool)
    requires Enabled(o)
    ensures var s := Init(store, o, prefs, subscribeThrows, markupHasRoot).session;
      && (s.panel.visible <==> Resolve(o).defaultOpen)
      && (s.toolbar.panelVisible <==> Resolve(o).defaultOpen)
    ensures var s := Init(store, o, prefs, subscribeThrows, markupHasRoot).session;
      !Resolve(o).defaultOpen ==> s.editor.None? && s.pending == [] && s.chains == 0
    ensures var s := Init(store, o, prefs, subscribeThrows, markupHasRoot).session;
      var c := Resolve(o);
      c.defaultOpen && markupHasRoot ==>
        && s.editor == Some(JsonEditorMount.Mount(InitialData(Codec.Snapshot(store)), c.readOnly, c.theme, c.rootName))
        && s.pending == []
    ensures var s := Init(store, o, prefs, subscribeThrows, markupHasRoot).session;
      Resolve(o).defaultOpen && !markupHasRoot ==> s.editor.None? && s.pending == [Retry(0, MaxRetries - 1)]
  {
  }

  // ---------------------------------------------------------------------------------------
  // What the invariant promises

  /** The mounted editor is rendered with the session's options: every edit affordance is
      restricted exactly when the session is read-only, the theme is the session's theme as
      the lookup as written resolves it (the intended theme, with its fallback, unless the
      name is inherited from `Object.prototype`), and the root name is the session's. */
  lemma EditorHonoursOptions(s: Session)
    requires Inv(s) && s.editor.Some?
    ensures JsonEditorMount.Props(s.editor.value).restrictions
         == (if s.config.readOnly then JsonEditorMount.Restrictions(true, true, true, Some(true))
             else JsonEditorMount.Restrictions(false, false, false, None))
    ensures JsonEditorMount.Props(s.editor.value).theme == JsonEditorMount.ResolveThemeAsWritten(s.config.theme)
    ensures s.config.theme !in JsonEditorMount.InheritedNames ==>
      JsonEditorMount.Props(s.editor.value).theme == JsonEditorMount.ThemeObject(JsonEditorMount.ResolveTheme(s.config.theme))
    ensures s.config.theme in JsonEditorMount.InheritedNames ==>
      JsonEditorMount.Props(s.editor.value).theme == JsonEditorMount.InheritedMember(s.config.theme)
    ensures JsonEditorMount.Props(s.editor.value).rootName == s.config.rootName
  {
    JsonEditorMount.ReadOnlyRestrictsAll(s.config.readOnly);
  }

  /** Every session `init` returns satisfies the invariant after any inputs. */
  lemma Reachable(store: Codec.Value, o: Options, prefs: map<string, string>, subscribeThrows: bool,
                  markupHasRoot: bool, inputs: seq<Input>)
    requires Enabled(o)
    ensures Inv(StepAll(Init(store, o, prefs, subscribeThrows, markupHasRoot).session, inputs))
  {
    InitEstablishes(store, o, prefs, subscribeThrows, markupHasRoot);
    StepAllKeeps(Init(store, o, prefs, subscribeThrows, markupHasRoot).session, inputs);
  }

  /** At most one editor is mounted at a time: mounts never get more than one ahead of
      unmounts, and a mounted editor always has a panel container to live in. */
  lemma AtMostOneEditor(s: Session)
    requires Inv(s)
    ensures Count(s.trace, KUnmounted) <= Count(s.trace, KMounted) <= Count(s.trace, KUnmounted) + 1
    ensures s.editor.Some? ==> s.panel.visible && s.panel.container.Some?
  {
  }

  /** Every `tryMount` chain makes at most eleven attempts: one plus ten retries. */
  lemma RetriesBounded(s: Session, chain: nat)
    requires Inv(s)
    ensures Count(s.trace, KProbe(chain)) <= MaxRetries + 1
  {
    assert Count(s.trace, KProbe(chain)) + Budget(s.pending, chain) + 0 <= MaxRetries + 1;
  }

  // ---------------------------------------------------------------------------------------
  // Snapshot delivery and relay

  /** The snapshots the bridge delivered to `onSnapshot`, in order. */
  function Deliveries(t: seq<Event>): seq<Option<Codec.Json>>
    decreases |t|
  {
    if |t| == 0 then []
    else Deliveries(t[..|t| - 1]) + (if t[|t| - 1].SnapshotDelivered? then [t[|t| - 1].snapshot] else [])
  }

  lemma {:induction false} DeliveriesAppend(a: seq<Event>, b: seq<Event>)
    ensures Deliveries(a + b) == Deliveries(a) + Deliveries(b)
    decreases |b|
  {
    if |b| == 0 {
      assert a + b == a;
    } else {
      assert (a + b)[..|a + b| - 1] == a + b[..|b| - 1];
      assert (a + b)[|a + b| - 1] == b[|b| - 1];
      DeliveriesAppend(a, b[..|b| - 1]);
    }
  }

  /** A sequence of store change notifications, each with whether the panel reports a drag. */
  function Changes(cs: seq<(Codec.Value, bool)>): (inputs: seq<Input>)
    ensures |inputs| == |cs|
  {
    seq(|cs|, i requires 0 <= i < |cs| => Change(cs[i].0, cs[i].1))
  }

  /** The store values the changes carry. */
  function ValuesOf(cs: seq<(Codec.Value, bool)>): (vs: seq<Codec.Value>)
    ensures |vs| == |cs|
  {
    seq(|cs|, i requires 0 <= i < |cs| => cs[i].0)
  }

  /** What the bridge's `Deliver` hands to `onSnapshot` for these changes. */
  function SnapshotsOf(cs: seq<(Codec.Value, bool)>): (r: seq<Option<Codec.Json>>)
    ensures |r| == |cs|
  {
    StateBridge.Snapshots(ValuesOf(cs))
  }

  lemma ChangeDelivers(s: Session, v: Codec.Value, dragging: bool)
    ensures StoreChanged(s, v, dragging).bridge == s.bridge
    ensures Deliveries(StoreChanged(s, v, dragging).trace)
         == Deliveries(s.trace) + (if s.bridge.subscribed then [Codec.Snapshot(v)] else [])
  {
    var r := StoreChanged(s, v, dragging);
    if s.bridge.subscribed {
      var snapshot := Codec.Snapshot(v);
      var added := if dragging || s.editor.None? then [SnapshotDelivered(snapshot)]
                   else [SnapshotDelivered(snapshot), Relayed(snapshot)];
      assert r.trace == s.trace + added;
      DeliveriesAppend(s.trace, added);
      assert [SnapshotDelivered(snapshot)][..0] == [];
      assert added == [SnapshotDelivered(snapshot)] || added[..1] == [SnapshotDelivered(snapshot)];
    }
  }

  lemma SnapshotsOfCons(cs: seq<(Codec.Value, bool)>)
    requires |cs| > 0
    ensures SnapshotsOf(cs) == [Codec.Snapshot(cs[0].0)] + SnapshotsOf(cs[1..])
  {
    var r := [Codec.Snapshot(cs[0].0)] + SnapshotsOf(cs[1..]);
    forall i | 0 <= i < |cs| ensures SnapshotsOf(cs)[i] == r[i] {
      if i > 0 {
        assert cs[1..][i - 1] == cs[i];
      }
    }
  }

  lemma ChangesUnfold(s: Session, cs: seq<(Codec.Value, bool)>)
    requires |cs| > 0
    ensures StepAll(s, Changes(cs)) == StepAll(StoreChanged(s, cs[0].0, cs[0].1), Changes(cs[1..]))
  {
    assert Changes(cs)[0] == Change(cs[0].0, cs[0].1);
    assert Changes(cs)[1..] == Changes(cs[1..]);
  }

  /** Change notifications never touch the bridge. */
  lemma {:induction false} ChangesKeepBridge(s: Session, cs: seq<(Codec.Value, bool)>)
    ensures StepAll(s, Changes(cs)).bridge == s.bridge
    decreases |cs|
  {
    if |cs| > 0 {
      ChangesUnfold(s, cs);
      ChangesKeepBridge(StoreChanged(s, cs[0].0, cs[0].1), cs[1..]);
    }
  }

  lemma ConcatAssoc<X>(a: seq<X>, b: seq<X>, c: seq<X>)
    ensures (a + b) + c == a + (b + c)
  {
  }

  /** The induction step of `ChangesDeliverInOrder`: the first change's delivery followed by
      the deliveries of the rest. */
  lemma ChangesDeliverStep(s: Session, cs: seq<(Codec.Value, bool)>)
    requires |cs| > 0
    requires
      var s1 := StoreChanged(s, cs[0].0, cs[0].1);
      Deliveries(StepAll(s1, Changes(cs[1..])).trace)
        == Deliveries(s1.trace) + (if s1.bridge.subscribed then SnapshotsOf(cs[1..]) else [])
    ensures Deliveries(StepAll(s, Changes(cs)).trace)
         == Deliveries(s.trace) + (if s.bridge.subscribed then SnapshotsOf(cs) else [])
  {
    var s1 := StoreChanged(s, cs[0].0, cs[0].1);
    var d0, d1 := Deliveries(s.trace), Deliveries(s1.trace);
    var d2 := Deliveries(StepAll(s1, Changes(cs[1..])).trace);
    var head := if s.bridge.subscribed then [Codec.Snapshot(cs[0].0)] else [];
    var tail := if s.bridge.subscribed then SnapshotsOf(cs[1..]) else [];
    assert d1 == d0 + head by { ChangeDelivers(s, cs[0].0, cs[0].1); }
    assert d2 == d1 + tail;
    assert Deliveries(StepAll(s, Changes(cs)).trace) == d2 by { ChangesUnfold(s, cs); }
    assert head + tail == (if s.bridge.subscribed then SnapshotsOf(cs) else []) by {
      SnapshotsOfCons(cs);
    }
    ConcatAssoc(d0, head, tail);
  }

  /** Each change notification yields exactly one delivery of the snapshot of the store's new
      value, in emission order; without a subscription there are none. */
  lemma {:induction false} ChangesDeliverInOrder(s: Session, cs: seq<(Codec.Value, bool)>)
    ensures Deliveries(StepAll(s, Changes(cs)).trace)
         == Deliveries(s.trace) + (if s.bridge.subscribed then SnapshotsOf(cs) else [])
    decreases |cs|
  {
    if |cs| == 0 {
      assert StepAll(s, Changes(cs)) == s;
      assert Deliveries(s.trace) + [] == Deliveries(s.trace);
    } else {
      ChangesDeliverInOrder(StoreChanged(s, cs[0].0, cs[0].1), cs[1..]);
      ChangesDeliverStep(s, cs);
    }
  }

  /** While the panel reports a drag, no snapshot reaches the editor, however many changes
      the store emits. */
  lemma {:induction false} DragSuppressesRelay(s: Session, cs: seq<(Codec.Value, bool)>)
    requires forall i | 0 <= i < |cs| :: cs[i].1
    ensures StepAll(s, Changes(cs)).editor == s.editor
    decreases |cs|
  {
    if |cs| > 0 {
      ChangesUnfold(s, cs);
      DragSuppressesRelay(StoreChanged(s, cs[0].0, cs[0].1), cs[1..]);
    }
  }

  /** Outside a drag, a change reaches an editor whose updater is registered: it then shows
      the snapshot of the store's new value. */
  lemma ChangeReachesEditor(s: Session, v: Codec.Value)
    requires s.bridge.subscribed && s.editor.Some? && s.editor.value.updater && s.editor.value.mounted
    ensures StoreChanged(s, v, false).editor.Some?
    ensures StoreChanged(s, v, false).editor.value.data == Codec.Snapshot(v)
  {
  }

  /** The relay as written throws on every snapshot, so an editor never shows a change; the
      intended relay shows it. */
  lemma RelayAsWrittenNeverForwards(s: Session, snapshot: Option<Codec.Json>)
    requires s.editor.Some? && s.editor.value.updater && s.editor.value.mounted
    ensures RelayAsWritten(s, snapshot).None?
    ensures Relay(s, snapshot, false).editor.value.data == snapshot
  {
    assert "getIsDragging" !in PanelMethods;
  }

  // ---------------------------------------------------------------------------------------
  // Showing, hiding, toggling

  /** `togglePanel` flips the panel's visibility, and the toolbar follows. */
  lemma ToggleFlips(s: Session)
    requires Inv(s) && Live(s)
    ensures TogglePanel(s).panel.visible == !s.panel.visible
    ensures TogglePanel(s).toolbar.panelVisible == !s.panel.visible
    ensures s.panel.visible ==> TogglePanel(s).editor.None?
  {
  }

  /** Showing a hidden panel whose markup holds the editor root mounts one editor at once, on
      the current snapshot (or `{}`), and schedules no retry. */
  lemma ShowMountsAtOnce(s: Session)
    requires Inv(s) && Live(s) && !s.panel.visible && s.markupHasRoot
    ensures ShowPanel(s).editor
         == Some(JsonEditorMount.Mount(InitialData(Codec.Snapshot(s.store)),
                                       s.config.readOnly, s.config.theme, s.config.rootName))
    ensures ShowPanel(s).pending == s.pending
  {
  }

  /** Without the editor root, showing mounts nothing and schedules the first of the ten
      retries of the new chain. */
  lemma ShowWithoutRootSchedulesRetry(s: Session)
    requires Inv(s) && !s.markupHasRoot
    ensures ShowPanel(s).editor == s.editor
    ensures ShowPanel(s).pending == s.pending + [Retry(s.chains, MaxRetries - 1)]
  {
  }
}
