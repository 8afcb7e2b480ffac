/** The window registry: floating application windows, the shared stacking
    counter and the per-window drag state, as values.

    Every handler the desktop installs on a window is one transition here,
    a function from the registry before the event to the registry after it.
    The class in module Shell performs the same transitions in place. */
module Windows {
  import opened Viewport

  /** Identity of a window element.  The page creates a fresh element for
      every window; the model hands out identities from a counter. */
  type WinId = nat

  /** Stacking counter value before any window is opened. */
  const BaseZ := 50
  /** Size a window is restored to, and the stylesheet's initial size. */
  const DefaultWidth := 700
  const DefaultHeight := 420
  /** A maximized window sits at (Inset, Inset) and is Inset smaller than the
      viewport on each side. */
  const Inset := 10

  /** Drag state kept by each window's title bar: whether a drag is in
      progress, the pointer position at the press (the anchor) and the
      window's position at the press (the origin). */
  datatype Drag = Drag(dragging: bool, anchor: Point, origin: Point)

  const Idle := Drag(false, Point(0, 0), Point(0, 0))

  datatype Window = Window(
    title: string,
    content: string,
    left: int,
    top: int,
    width: int,
    height: int,
    zIndex: int,
    visible: bool,
    maximized: bool,
    drag: Drag)

  /** The live windows, the stacking counter and the next identity. */
  datatype Registry = Registry(z: int, nextId: WinId, windows: map<WinId, Window>)

  const Empty := Registry(BaseZ, 0, map[])

  /** Registry invariant: every live identity was handed out, every stacking
      value was issued by the counter (so lies in (BaseZ, z]) and no two live
      windows share one. */
  ghost predicate Valid(r: Registry) {
    && r.z >= BaseZ
    && (forall id :: id in r.windows ==> id < r.nextId && BaseZ < r.windows[id].zIndex <= r.z)
    && (forall a, b :: a in r.windows && b in r.windows && a != b ==>
          r.windows[a].zIndex != r.windows[b].zIndex)
  }

  /** `id` is live and renders above every other live window. */
  ghost predicate OnTop(r: Registry, id: WinId) {
    id in r.windows &&
    forall o :: o in r.windows && o != id ==> r.windows[o].zIndex < r.windows[id].zIndex
  }

  /** `r'` has no window `r` lacks, and every window it keeps has kept its
      stacking value. */
  ghost predicate KeepsStacking(r: Registry, r': Registry) {
    && r'.z == r.z
    && r'.windows.Keys <= r.windows.Keys
    && (forall id :: id in r'.windows ==> r'.windows[id].zIndex == r.windows[id].zIndex)
  }

  /** Text shown in a new window's body: the given content, or the title
      followed by " window content" when the content is empty. */
  function BodyText(title: string, content: string): (s: string)
    ensures content != [] ==> s == content
    ensures content == [] ==> |s| == |title| + 15 && s[..|title|] == title &&
                              s[|title|..] == " window content"
  {
    if content == [] then title + " window content" else content
  }

  /** Opens a window at the start position (x, y), which the page draws at
      random from [150, 350) x [100, 220).  It receives the next stacking
      value and the identity `r.nextId`. */
  function Open(r: Registry, title: string, content: string, x: int, y: int): (r': Registry)
    requires 150 <= x < 350 && 100 <= y < 220
    ensures r'.z == r.z + 1 && r'.nextId == r.nextId + 1
    ensures r'.windows.Keys == r.windows.Keys + {r.nextId}
    ensures forall id :: id in r.windows && id != r.nextId ==> r'.windows[id] == r.windows[id]
    ensures r'.windows[r.nextId].zIndex == r'.z
    ensures r'.windows[r.nextId] ==
              Window(title, BodyText(title, content), x, y, DefaultWidth, DefaultHeight,
                     r'.z, true, false, Idle)
  {
    var w := Window(title, BodyText(title, content), x, y, DefaultWidth, DefaultHeight,
                    r.z + 1, true, false, Idle);
    Registry(r.z + 1, r.nextId + 1, r.windows[r.nextId := w])
  }

  /** A press anywhere on a live window gives it the next stacking value. */
  function Focus(r: Registry, id: WinId): (r': Registry)
    ensures r'.windows.Keys == r.windows.Keys && r'.nextId == r.nextId
    ensures id in r.windows ==> r'.z == r.z + 1 && r'.windows[id].zIndex == r'.z
    ensures id in r.windows ==> r'.windows[id] == r.windows[id].(zIndex := r'.z)
    ensures id !in r.windows ==> r' == r
    ensures forall o :: o in r.windows && o != id ==> r'.windows[o] == r.windows[o]
  {
    if id in r.windows then
      Registry(r.z + 1, r.nextId, r.windows[id := r.windows[id].(zIndex := r.z + 1)])
    else r
  }

  /** The close button removes the window; closing an absent window does
      nothing. */
  function Close(r: Registry, id: WinId): (r': Registry)
    ensures id !in r'.windows
    ensures r'.windows.Keys == r.windows.Keys - {id}
    ensures KeepsStacking(r, r') && r'.nextId == r.nextId
    ensures forall o :: o in r'.windows ==> r'.windows[o] == r.windows[o]
  {
    r.(windows := r.windows - {id})
  }

  /** The minimize button hides the window and changes nothing else. */
  function Minimize(r: Registry, id: WinId): (r': Registry)
    ensures r'.windows.Keys == r.windows.Keys && KeepsStacking(r, r') && r'.nextId == r.nextId
    ensures id in r.windows ==> r'.windows[id] == r.windows[id].(visible := false)
    ensures forall o :: o in r.windows && o != id ==> r'.windows[o] == r.windows[o]
  {
    if id in r.windows then r.(windows := r.windows[id := r.windows[id].(visible := false)])
    else r
  }

  /** The maximize button's two-state machine on one window, in a (vw, vh)
      viewport.  Maximizing moves the window to (Inset, Inset) and sizes it
      to the viewport less 2 * Inset; restoring resets the size only. */
  function Toggled(w: Window, vw: int, vh: int): (w': Window)
    ensures w'.maximized == !w.maximized
    ensures w'.maximized ==> w'.left == Inset && w'.top == Inset &&
                             w'.width == vw - 2 * Inset && w'.height == vh - 2 * Inset
    ensures !w'.maximized ==> w'.left == w.left && w'.top == w.top &&
                              w'.width == DefaultWidth && w'.height == DefaultHeight
    ensures w'.zIndex == w.zIndex && w'.visible == w.visible && w'.drag == w.drag
    ensures w'.title == w.title && w'.content == w.content
  {
    if w.maximized then
      w.(width := DefaultWidth, height := DefaultHeight, maximized := false)
    else
      w.(left := Inset, top := Inset, width := vw - 2 * Inset, height := vh - 2 * Inset,
         maximized := true)
  }

  function ToggleMaximize(r: Registry, id: WinId, vw: int, vh: int): (r': Registry)
    ensures r'.windows.Keys == r.windows.Keys && KeepsStacking(r, r') && r'.nextId == r.nextId
    ensures id in r.windows ==> r'.windows[id] == Toggled(r.windows[id], vw, vh)
    ensures forall o :: o in r.windows && o != id ==> r'.windows[o] == r.windows[o]
  {
    if id in r.windows then r.(windows := r.windows[id := Toggled(r.windows[id], vw, vh)])
    else r
  }

  /** A press on the title bar at pointer (px, py) starts a drag, capturing
      the pointer as anchor and the window's current position as origin. */
  function DragStart(r: Registry, id: WinId, px: int, py: int): (r': Registry)
    ensures r'.windows.Keys == r.windows.Keys && KeepsStacking(r, r') && r'.nextId == r.nextId
    ensures id in r.windows ==>
              var w := r.windows[id];
              r'.windows[id] == w.(drag := Drag(true, Point(px, py), Point(w.left, w.top)))
    ensures forall o :: o in r.windows && o != id ==> r'.windows[o] == r.windows[o]
  {
    if id in r.windows then
      var w := r.windows[id];
      r.(windows := r.windows[id := w.(drag := Drag(true, Point(px, py), Point(w.left, w.top)))])
    else r
  }

  /** One window's pointer-move listener: while dragging, the window is at
      its origin displaced by how far the pointer is from the anchor. */
  function Moved(w: Window, px: int, py: int): (w': Window)
    ensures !w.drag.dragging ==> w' == w
    ensures w.drag.dragging ==>
              w'.left - w.drag.origin.x == px - w.drag.anchor.x &&
              w'.top - w.drag.origin.y == py - w.drag.anchor.y
    ensures w' == w.(left := w'.left, top := w'.top)
  {
    if !w.drag.dragging then w
    else w.(left := w.drag.origin.x + (px - w.drag.anchor.x),
            top := w.drag.origin.y + (py - w.drag.anchor.y))
  }

  /** A pointer move reaches the listener of every window. */
  function DragMove(r: Registry, px: int, py: int): (r': Registry)
    ensures r'.windows.Keys == r.windows.Keys && KeepsStacking(r, r') && r'.nextId == r.nextId
    ensures forall id :: id in r.windows ==> r'.windows[id] == Moved(r.windows[id], px, py)
  {
    r.(windows := map id | id in r.windows :: Moved(r.windows[id], px, py))
  }

  /** A pointer release reaches the listener of every window and ends every
      drag. */
  function MouseUp(r: Registry): (r': Registry)
    ensures r'.windows.Keys == r.windows.Keys && KeepsStacking(r, r') && r'.nextId == r.nextId
    ensures forall id :: id in r'.windows ==>
              !r'.windows[id].drag.dragging &&
              r'.windows[id] == r.windows[id].(drag := r'.windows[id].drag) &&
              r'.windows[id].drag.anchor == r.windows[id].drag.anchor &&
              r'.windows[id].drag.origin == r.windows[id].drag.origin
  {
    r.(windows := map id | id in r.windows :: r.windows[id].(drag := r.windows[id].drag.(dragging := false)))
  }

  // ---------------------------------------------------------------------
  // Properties of single transitions

  lemma EmptyValid()
    ensures Valid(Empty) && Empty.windows == map[]
  {
  }

  /** Any transition that keeps the stacking values of the windows it keeps
      preserves the invariant. */
  lemma KeepsStackingValid(r: Registry, r': Registry)
    requires Valid(r) && KeepsStacking(r, r') && r'.nextId == r.nextId
    ensures Valid(r')
  {
  }

  /** A transition that keeps stacking values keeps the top window on top
      for as long as it is live. */
  lemma KeepsStackingOnTop(r: Registry, r': Registry, id: WinId)
    requires KeepsStacking(r, r') && OnTop(r, id) && id in r'.windows
    ensures OnTop(r', id)
  {
  }

  /** A new window receives a stacking value above every live window. */
  lemma OpenOnTop(r: Registry, title: string, content: string, x: int, y: int)
    requires Valid(r)
    requires 150 <= x < 350 && 100 <= y < 220
    ensures var r' := Open(r, title, content, x, y);
            Valid(r') && OnTop(r', r.nextId) && r.nextId !in r.windows &&
            r'.windows[r.nextId].zIndex > BaseZ
  {
  }

  /** A press raises a live window above every other live window. */
  lemma FocusOnTop(r: Registry, id: WinId)
    requires Valid(r)
    ensures Valid(Focus(r, id))
    ensures id in r.windows ==> OnTop(Focus(r, id), id)
  {
  }

  /** Closing twice is closing once. */
  lemma CloseIdempotent(r: Registry, id: WinId)
    ensures Close(Close(r, id), id) == Close(r, id)
  {
  }

  /** Closing a window that is not live leaves the registry as it was. */
  lemma CloseAbsent(r: Registry, id: WinId)
    requires id !in r.windows
    ensures Close(r, id) == r
  {
  }

  /** Maximize then restore leaves the window at (Inset, Inset) with the
      default size: the position it had before maximizing is not restored. */
  lemma MaximizeRoundTrip(w: Window, vw1: int, vh1: int, vw2: int, vh2: int)
    requires !w.maximized
    ensures var w' := Toggled(Toggled(w, vw1, vh1), vw2, vh2);
            w' == w.(left := Inset, top := Inset, width := DefaultWidth, height := DefaultHeight)
  {
  }

  /** After a release no window is dragging, so a pointer move changes
      nothing. */
  lemma MoveAfterMouseUp(r: Registry, px: int, py: int)
    ensures DragMove(MouseUp(r), px, py) == MouseUp(r)
  {
  }
}
