/**
  The `Toolbar` class of `ui/toolbar.ts`: an idempotently mounted container, a minimized
  flag read once from preferences, a panel-visible flag, and pointer-drag handling with
  integer offsets. The container's mousedown listener and the document-level mousemove and
  mouseup listeners are modelled by which handlers can currently be reached.
 */
module Toolbars {
  import opened Optional
  import Prefs
  import Panels

  /** Where the container is drawn: at its stylesheet position, or at explicit `left`/`top`
      pixels (with `right`/`bottom` set to `auto`) once a drag has moved it. */
  datatype Placement = Docked | At(left: int, top: int)

  datatype ToolbarBox = ToolbarBox(minimizedClass: bool, draggingClass: bool, placement: Placement)

  datatype Toolbar = Toolbar(
    container: Option<ToolbarBox>,
    dragging: bool,
    offsetX: int,
    offsetY: int,
    minimized: bool,
    panelVisible: bool,
    rootName: string,
    hasOnToggle: bool,
    tracking: bool)   // the document mousemove/mouseup listeners are attached

  const MinimizedKey: string := "toolbar-minimized"

  /** Construction: not mounted, not dragging, the minimized flag read from preferences with
      default false. */
  function New(st: Prefs.Storage, rootName: Option<string>, hasOnToggle: bool): (t: Toolbar)
    ensures t.container.None? && !t.dragging && !t.tracking && !t.panelVisible
    ensures t.offsetX == 0 && t.offsetY == 0
    ensures t.minimized <==> Prefs.StorageKey(MinimizedKey) in st && st[Prefs.StorageKey(MinimizedKey)] == "true"
    ensures rootName.Some? && rootName.value != "" ==> t.rootName == rootName.value
    ensures rootName.None? || rootName.value == "" ==> t.rootName == "state$"
  {
    Toolbar(None, false, 0, 0, Prefs.GetStoredBoolean(st, MinimizedKey, false), false,
            Panels.OrString(rootName, Panels.DefaultRootName), hasOnToggle, false)
  }

  /** `mount`: creates the container (minimized class from the flag) only when there is none. */
  function Mount(t: Toolbar): (r: Toolbar)
    ensures r.container.Some?
    ensures t.container.Some? ==> r == t
    ensures t.container.None? ==> r.container.value == ToolbarBox(t.minimized, false, Docked)
    ensures r.(container := t.container) == t
  {
    if t.container.Some? then t
    else t.(container := Some(ToolbarBox(t.minimized, false, Docked)))
  }

  /** The click handler: whether `onTogglePanel` is called. */
  function ToggleRequested(t: Toolbar, action: Option<string>): (r: bool)
    ensures r ==> action == Some("toggle-panel")
    ensures action == Some("toggle-panel") && t.hasOnToggle ==> r
  {
    t.hasOnToggle && action == Some("toggle-panel")
  }

  /** Mousedown at (`x`, `y`). A press on a button starts nothing; otherwise a drag starts,
      the document listeners are attached, and the offset of the pointer from the
      container's bounding rectangle (`rectLeft`, `rectTop`, supplied by layout) is kept. */
  function MouseDown(t: Toolbar, onButton: bool, x: int, y: int, rectLeft: int, rectTop: int): (r: Toolbar)
    ensures onButton ==> r == t
    ensures !onButton ==> r.dragging && r.tracking
    ensures r.container.None? <==> t.container.None?
    ensures !onButton && t.container.Some? ==>
      r.offsetX == x - rectLeft && r.offsetY == y - rectTop && r.container.value.draggingClass
    ensures t.container.Some? ==>
      r.container.value.(draggingClass := t.container.value.draggingClass) == t.container.value
    ensures t.container.None? ==> r.offsetX == t.offsetX && r.offsetY == t.offsetY
    ensures r.(dragging := t.dragging, tracking := t.tracking, container := t.container,
               offsetX := t.offsetX, offsetY := t.offsetY) == t
  {
    if onButton then t
    else
      var started := t.(dragging := true, tracking := true);
      if t.container.Some? then
        started.(container := Some(t.container.value.(draggingClass := true)),
                 offsetX := x - rectLeft, offsetY := y - rectTop)
      else started
  }

  /** Mousemove to (`x`, `y`): only during a drag of a mounted toolbar does the container move,
      to the pointer minus the kept offset. */
  function MouseMove(t: Toolbar, x: int, y: int): (r: Toolbar)
    ensures !t.dragging || t.container.None? ==> r == t
    ensures t.dragging && t.container.Some? ==>
      r.container.Some? && r.container.value.placement == At(x - t.offsetX, y - t.offsetY)
    ensures t.dragging && t.container.Some? ==>
      r.container.value.(placement := t.container.value.placement) == t.container.value
    ensures r.(container := t.container) == t
  {
    if !t.dragging || t.container.None? then t
    else t.(container := Some(t.container.value.(placement := At(x - t.offsetX, y - t.offsetY))))
  }

  /** Mouseup: the drag ends and the document listeners are detached, whatever the state. */
  function MouseUp(t: Toolbar): (r: Toolbar)
    ensures !r.dragging && !r.tracking
    ensures r.container.Some? ==> !r.container.value.draggingClass
    ensures r.container.None? <==> t.container.None?
    ensures t.container.Some? ==>
      r.container.value.(draggingClass := t.container.value.draggingClass) == t.container.value
    ensures r.(dragging := t.dragging, tracking := t.tracking, container := t.container) == t
  {
    var stopped := t.(dragging := false, tracking := false);
    if t.container.Some? then stopped.(container := Some(t.container.value.(draggingClass := false)))
    else stopped
  }

  function SetPanelVisible(t: Toolbar, visible: bool): (r: Toolbar)
    ensures r.panelVisible == visible
    ensures r.(panelVisible := t.panelVisible) == t
  {
    t.(panelVisible := visible)
  }

  /** `unmount`: container and every listener removed; the drag flag is left as it was. */
  function Unmount(t: Toolbar): (r: Toolbar)
    ensures r.container.None? && !r.tracking
    ensures r.(container := t.container, tracking := t.tracking) == t
  {
    t.(container := None, tracking := false)
  }

  /** A second `unmount` changes nothing. */
  lemma UnmountIdempotent(t: Toolbar)
    ensures Unmount(Unmount(t)) == Unmount(t)
  {
  }

  /** A second `mount` changes nothing. */
  lemma MountIdempotent(t: Toolbar)
    ensures Mount(Mount(t)) == Mount(t)
  {
  }

  /** Dragging moves the toolbar by exactly the pointer's displacement since the press: a
      press at (`x0`, `y0`) on a container whose rectangle starts at (`rectLeft`, `rectTop`),
      then a move by (`dx`, `dy`), puts the container at that origin plus (`dx`, `dy`). */
  lemma DragFollowsPointer(t: Toolbar, x0: int, y0: int, rectLeft: int, rectTop: int, dx: int, dy: int)
    requires t.container.Some?
    ensures MouseMove(MouseDown(t, false, x0, y0, rectLeft, rectTop), x0 + dx, y0 + dy).container
         == Some(ToolbarBox(t.container.value.minimizedClass, true, At(rectLeft + dx, rectTop + dy)))
  {
  }

  // ---------------------------------------------------------------------------------------
  // Events as they reach the toolbar

  datatype ToolbarEvent =
    | MountEvent
    | UnmountEvent
    | PanelVisibleEvent(visible: bool)
    | PressEvent(onButton: bool, x: int, y: int, rectLeft: int, rectTop: int)
    | MoveEvent(x: int, y: int)
    | ReleaseEvent

  /** Dispatch: a press reaches the handler only through the container's listener, and moves
      and releases only through the document listeners attached by a press. */
  function Dispatch(t: Toolbar, e: ToolbarEvent): (r: Toolbar)
    ensures e.PressEvent? || e.MoveEvent? || e.ReleaseEvent? ==>
      && r.panelVisible == t.panelVisible
      && (r.container.Some? <==> t.container.Some?)
      && (t.container.None? && !t.tracking ==> r == t)
  {
    match e
    case MountEvent => Mount(t)
    case UnmountEvent => Unmount(t)
    case PanelVisibleEvent(v) => SetPanelVisible(t, v)
    case PressEvent(b, x, y, l, tp) => if t.container.Some? then MouseDown(t, b, x, y, l, tp) else t
    case MoveEvent(x, y) => if t.tracking then MouseMove(t, x, y) else t
    case ReleaseEvent => if t.tracking then MouseUp(t) else t
  }

  function DispatchAll(t: Toolbar, es: seq<ToolbarEvent>): Toolbar
    decreases |es|
  {
    if |es| == 0 then t else DispatchAll(Dispatch(t, es[0]), es[1..])
  }

  /** The minimized flag is fixed at construction: no sequence of toolbar events changes it,
      nor the root name or the toggle callback. Moves while not dragging do nothing. */
  lemma {:induction false} MinimizedIsFixed(t: Toolbar, es: seq<ToolbarEvent>)
    ensures DispatchAll(t, es).minimized == t.minimized
    ensures DispatchAll(t, es).rootName == t.rootName
    ensures DispatchAll(t, es).hasOnToggle == t.hasOnToggle
    decreases |es|
  {
    if |es| > 0 {
      DispatchKeepsFixed(t, es[0]);
      MinimizedIsFixed(Dispatch(t, es[0]), es[1..]);
    }
  }

  /** One event leaves the minimized flag, the root name and the toggle callback alone. */
  lemma DispatchKeepsFixed(t: Toolbar, e: ToolbarEvent)
    ensures Dispatch(t, e).minimized == t.minimized
    ensures Dispatch(t, e).rootName == t.rootName
    ensures Dispatch(t, e).hasOnToggle == t.hasOnToggle
  {
  }

  /** Whenever the document listeners are attached, a drag is in progress: a move can only
      move the toolbar during a drag. */
  lemma {:induction false} TrackingOnlyWhileDragging(t: Toolbar, es: seq<ToolbarEvent>)
    requires t.tracking ==> t.dragging
    ensures DispatchAll(t, es).tracking ==> DispatchAll(t, es).dragging
    decreases |es|
  {
    if |es| > 0 {
      TrackingOnlyWhileDragging(Dispatch(t, es[0]), es[1..]);
    }
  }
}
