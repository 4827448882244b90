/**
  The `Panel` class of `ui/panel.ts`: a visibility flag, an optional DOM container created
  lazily by `show` and dropped by `hide` and `unmount`, and a click handler that reports the
  `close-panel` action. DOM and template rendering are abstracted to what the rest of the
  program observes: whether a container exists and whether its markup holds the editor root.
 */
module Panels {
  import opened Optional

  datatype Position = Left | Right

  /** Constructor options; `None` is an option left undefined. */
  datatype PanelOptions = PanelOptions(
    rootName: Option<string>,
    readOnly: Option<bool>,
    position: Option<Position>,
    hasOnClose: bool)

  /** The panel's container: whether it carries the left-position class, and whether the
      markup last rendered into it contains the editor root element. */
  datatype Surface = Surface(leftAligned: bool, hasEditorRoot: bool)

  datatype Panel = Panel(
    container: Option<Surface>,
    visible: bool,
    rootName: string,
    readOnly: bool,
    position: Position,
    hasOnClose: bool)

  const DefaultRootName: string := "state$"

  /** JavaScript's `s || d` on an optional string: the default for undefined and for "". */
  function OrString(s: Option<string>, d: string): (r: string)
    ensures r == d || (s.Some? && r == s.value && r != "")
    ensures s.Some? && s.value != "" ==> r == s.value
  {
    if s.Some? && s.value != "" then s.value else d
  }

  /** A panel with no container is hidden, and a panel with a container is visible. */
  predicate Consistent(p: Panel) {
    p.visible <==> p.container.Some?
  }

  function New(o: PanelOptions): (p: Panel)
    ensures !p.visible && p.container.None?
    ensures p.rootName == OrString(o.rootName, DefaultRootName)
    ensures p.readOnly <==> o.readOnly == Some(true)
    ensures o.position.Some? ==> p.position == o.position.value
    ensures o.position.None? ==> p.position == Right
    ensures o == PanelOptions(None, None, None, o.hasOnClose)
      ==> p.rootName == "state$" && !p.readOnly && p.position == Right
  {
    Panel(None, false, OrString(o.rootName, DefaultRootName), o.readOnly == Some(true),
          if o.position.Some? then o.position.value else Right, o.hasOnClose)
  }

  /** The result of `show`: the panel afterwards and whether a new container was created. */
  datatype Shown = Shown(panel: Panel, created: bool)

  /** `show`: becomes visible, creates a container only when there is none, and re-renders
      the container's markup (`markupHasRoot` says whether the rendered template holds the
      editor root). */
  function Show(p: Panel, markupHasRoot: bool): (r: Shown)
    ensures r.panel.visible && r.panel.container.Some?
    ensures r.created <==> p.container.None?
    ensures r.panel.container.value.hasEditorRoot == markupHasRoot
    ensures r.panel.container.value.leftAligned
         == (if r.created then p.position == Left else p.container.value.leftAligned)
    ensures r.panel.(container := p.container, visible := p.visible) == p
  {
    var left := if p.container.Some? then p.container.value.leftAligned else p.position == Left;
    Shown(p.(visible := true, container := Some(Surface(left, markupHasRoot))), p.container.None?)
  }

  /** `hide`: hidden and container dropped; harmless without a container. */
  function Hide(p: Panel): (r: Panel)
    ensures !r.visible && r.container.None?
    ensures r.(container := p.container, visible := p.visible) == p
  {
    p.(visible := false, container := None)
  }

  /** `toggle`: hides a visible panel and shows a hidden one. */
  function Toggle(p: Panel, markupHasRoot: bool): (r: Panel)
    ensures r.visible == !p.visible
    ensures Consistent(r)
  {
    if p.visible then Hide(p) else Show(p, markupHasRoot).panel
  }

  /** `getEditorRoot`: whether the editor root element can be found; never without a
      container. */
  function HasEditorRoot(p: Panel): (r: bool)
    ensures r ==> p.container.Some?
    ensures p.container.Some? ==> (r <==> p.container.value.hasEditorRoot)
  {
    p.container.Some? && p.container.value.hasEditorRoot
  }

  /** `unmount`: container dropped (with its listener) and hidden, in any state. The click
      listener lives on the container, so once the container is gone `unmount` and `hide`
      leave the same observable state. */
  function Unmount(p: Panel): (r: Panel)
    ensures !r.visible && r.container.None?
    ensures r.(container := p.container, visible := p.visible) == p
  {
    Hide(p)
  }

  /** A second `unmount` changes nothing. */
  lemma UnmountIdempotent(p: Panel)
    ensures Unmount(Unmount(p)) == Unmount(p)
  {
  }

  /** The click handler: whether `onClose` is called. Only the `close-panel` action does
      anything, and only when an `onClose` was given. */
  function CloseRequested(p: Panel, action: Option<string>): (r: bool)
    ensures r ==> action == Some("close-panel")
    ensures action == Some("close-panel") && p.hasOnClose ==> r
  {
    p.hasOnClose && action == Some("close-panel")
  }

  // ---------------------------------------------------------------------------------------
  // Sequences of operations: no container is ever leaked

  datatype PanelOp = ShowOp(markupHasRoot: bool) | HideOp | ToggleOp(markupHasRoot: bool) | UnmountOp

  /** The panel after one operation, and the containers it created and removed. */
  function Step(p: Panel, op: PanelOp): (Panel, nat, nat) {
    match op
    case ShowOp(m) =>
      var s := Show(p, m);
      (s.panel, if s.created then 1 else 0, 0)
    case HideOp => (Hide(p), 0, if p.container.Some? then 1 else 0)
    case ToggleOp(m) =>
      if p.visible then (Hide(p), 0, if p.container.Some? then 1 else 0)
      else var s := Show(p, m); (s.panel, if s.created then 1 else 0, 0)
    case UnmountOp => (Unmount(p), 0, if p.container.Some? then 1 else 0)
  }

  /** The panel after a sequence of operations, with the total containers created and removed. */
  function Apply(p: Panel, ops: seq<PanelOp>): (Panel, nat, nat)
    decreases |ops|
  {
    if |ops| == 0 then (p, 0, 0)
    else
      var first := Step(p, ops[0]);
      var rest := Apply(first.0, ops[1..]);
      (rest.0, first.1 + rest.1, first.2 + rest.2)
  }

  /** Over any sequence of operations from a consistent panel, visibility and the container
      stay in step, and containers created minus containers removed is exactly the change in
      whether a container exists: repeated `show` never creates a second one, and every
      created container is removed by the time the panel has none. */
  lemma {:induction false} NoContainerLeak(p: Panel, ops: seq<PanelOp>)
    requires Consistent(p)
    ensures Consistent(Apply(p, ops).0)
    ensures Apply(p, ops).1 + (if p.container.Some? then 1 else 0)
         == Apply(p, ops).2 + (if Apply(p, ops).0.container.Some? then 1 else 0)
    decreases |ops|
  {
    if |ops| > 0 {
      var first := Step(p, ops[0]);
      assert Consistent(first.0);
      assert first.1 + (if p.container.Some? then 1 else 0)
          == first.2 + (if first.0.container.Some? then 1 else 0);
      NoContainerLeak(first.0, ops[1..]);
    }
  }
}
