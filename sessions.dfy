/** Sequences of pointer events handled by the window registry, and what
    holds after any of them: the window the user touched last is on top,
    the stacking counter counts the touches, and a drag is path-independent. */
module Sessions {
  import opened Viewport
  import opened Windows

  /** One handler invocation.  A press on a title bar runs both TitleDown
      (the bar's drag listener) and PointerDown (the window's raise
      listener); the model treats them as two events. */
  datatype Event =
    | Launch(title: string, content: string, x: int, y: int)  // open a window at (x, y)
    | PointerDown(id: WinId)                                  // press anywhere on a window
    | CloseClick(id: WinId)
    | MinimizeClick(id: WinId)
    | MaximizeClick(id: WinId, vw: int, vh: int)              // in a (vw, vh) viewport
    | TitleDown(id: WinId, px: int, py: int)
    | PointerMove(px: int, py: int)
    | PointerUp

  /** The page draws a new window's start position from [150, 350) x [100, 220). */
  predicate Admissible(e: Event) {
    e.Launch? ==> 150 <= e.x < 350 && 100 <= e.y < 220
  }

  predicate AllAdmissible(evs: seq<Event>) {
    forall e | e in evs :: Admissible(e)
  }

  function Step(r: Registry, e: Event): Registry
    requires Admissible(e)
  {
    match e
    case Launch(title, content, x, y) => Open(r, title, content, x, y)
    case PointerDown(id) => Focus(r, id)
    case CloseClick(id) => Close(r, id)
    case MinimizeClick(id) => Minimize(r, id)
    case MaximizeClick(id, vw, vh) => ToggleMaximize(r, id, vw, vh)
    case TitleDown(id, px, py) => DragStart(r, id, px, py)
    case PointerMove(px, py) => DragMove(r, px, py)
    case PointerUp => MouseUp(r)
  }

  /** The registry after handling `evs` in order. */
  function Run(r: Registry, evs: seq<Event>): Registry
    requires AllAdmissible(evs)
    decreases |evs|
  {
    if evs == [] then r else Run(Step(r, evs[0]), evs[1..])
  }

  /** The window an event raises: the new window for a launch, the pressed
      window for a press on a live window, none otherwise. */
  function Touch(r: Registry, e: Event): (t: seq<WinId>)
    requires Admissible(e)
    ensures |t| <= 1
    ensures |t| == 1 <==> e.Launch? || (e.PointerDown? && e.id in r.windows)
  {
    match e
    case Launch(_, _, _, _) => [r.nextId]
    case PointerDown(id) => if id in r.windows then [id] else []
    case _ => []
  }

  /** The windows raised while handling `evs`, in order. */
  function Touches(r: Registry, evs: seq<Event>): seq<WinId>
    requires AllAdmissible(evs)
    decreases |evs|
  {
    if evs == [] then [] else Touch(r, evs[0]) + Touches(Step(r, evs[0]), evs[1..])
  }

  /** One event keeps the invariant; an event that raises nothing keeps
      every stacking value and the counter, and an event that raises a
      window puts it on top. */
  lemma StepProperties(r: Registry, e: Event)
    requires Valid(r) && Admissible(e)
    ensures Valid(Step(r, e))
    ensures Touch(r, e) == [] ==> KeepsStacking(r, Step(r, e))
    ensures Touch(r, e) != [] ==> Step(r, e).z == r.z + 1 && OnTop(Step(r, e), Touch(r, e)[0])
  {
    match e
    case Launch(title, content, x, y) => OpenOnTop(r, title, content, x, y);
    case PointerDown(id) => FocusOnTop(r, id);
    case CloseClick(id) => KeepsStackingValid(r, Step(r, e));
    case MinimizeClick(id) => KeepsStackingValid(r, Step(r, e));
    case MaximizeClick(id, vw, vh) => KeepsStackingValid(r, Step(r, e));
    case TitleDown(id, px, py) => KeepsStackingValid(r, Step(r, e));
    case PointerMove(px, py) => KeepsStackingValid(r, Step(r, e));
    case PointerUp => KeepsStackingValid(r, Step(r, e));
  }

  /** The invariant holds after any run. */
  lemma {:induction false} RunValid(r: Registry, evs: seq<Event>)
    requires Valid(r) && AllAdmissible(evs)
    ensures Valid(Run(r, evs))
    decreases |evs|
  {
    if evs != [] {
      StepProperties(r, evs[0]);
      RunValid(Step(r, evs[0]), evs[1..]);
    }
  }

  /** Every raise issues exactly one counter value: after any run the counter
      has grown by the number of raises. */
  lemma {:induction false} CounterCountsTouches(r: Registry, evs: seq<Event>)
    requires Valid(r) && AllAdmissible(evs)
    ensures Run(r, evs).z == r.z + |Touches(r, evs)|
    decreases |evs|
  {
    if evs != [] {
      StepProperties(r, evs[0]);
      CounterCountsTouches(Step(r, evs[0]), evs[1..]);
    }
  }

  /** A run that raises nothing keeps the stacking value of every window that
      survives it and adds no window. */
  lemma {:induction false} UntouchedRunKeepsStacking(r: Registry, evs: seq<Event>)
    requires Valid(r) && AllAdmissible(evs)
    requires Touches(r, evs) == []
    ensures KeepsStacking(r, Run(r, evs))
    decreases |evs|
  {
    if evs != [] {
      var r1 := Step(r, evs[0]);
      StepProperties(r, evs[0]);
      UntouchedRunKeepsStacking(r1, evs[1..]);
    }
  }

  /** After any run, the window raised last, if it is still live, renders
      above every other live window. */
  lemma {:induction false} LastTouchedOnTop(r: Registry, evs: seq<Event>)
    requires Valid(r) && AllAdmissible(evs)
    requires Touches(r, evs) != []
    requires Touches(r, evs)[|Touches(r, evs)| - 1] in Run(r, evs).windows
    ensures OnTop(Run(r, evs), Touches(r, evs)[|Touches(r, evs)| - 1])
    decreases |evs|
  {
    var r1 := Step(r, evs[0]);
    var rest := Touches(r1, evs[1..]);
    StepProperties(r, evs[0]);
    if rest != [] {
      LastTouchedOnTop(r1, evs[1..]);
    } else {
      var t := Touch(r, evs[0]);
      assert Touches(r, evs) == t;
      UntouchedRunKeepsStacking(r1, evs[1..]);
      KeepsStackingOnTop(r1, Run(r1, evs[1..]), t[0]);
    }
  }

  // ---------------------------------------------------------------------
  // Dragging

  /** The registry after the pointer moves through `pts` in order. */
  function Moves(r: Registry, pts: seq<Point>): Registry
    decreases |pts|
  {
    if pts == [] then r else Moves(DragMove(r, pts[0].x, pts[0].y), pts[1..])
  }

  /** Path independence: while a window is dragging, after any non-empty
      sequence of moves it sits at its origin displaced by the last pointer
      position minus the anchor, unclamped, and nothing else about it
      changes. */
  lemma {:induction false} DragFollowsLastPointer(r: Registry, pts: seq<Point>, id: WinId)
    requires id in r.windows && r.windows[id].drag.dragging && pts != []
    ensures var w := r.windows[id];
            var p := pts[|pts| - 1];
            id in Moves(r, pts).windows &&
            Moves(r, pts).windows[id] ==
              w.(left := w.drag.origin.x + p.x - w.drag.anchor.x,
                 top := w.drag.origin.y + p.y - w.drag.anchor.y)
    decreases |pts|
  {
    var r1 := DragMove(r, pts[0].x, pts[0].y);
    if |pts| > 1 {
      DragFollowsLastPointer(r1, pts[1..], id);
      assert pts[1..][|pts[1..]| - 1] == pts[|pts| - 1];
    }
  }

  /** A window that is not dragging is left alone by any sequence of moves. */
  lemma {:induction false} IdleIgnoresMoves(r: Registry, pts: seq<Point>, id: WinId)
    requires id in r.windows && !r.windows[id].drag.dragging
    ensures id in Moves(r, pts).windows && Moves(r, pts).windows[id] == r.windows[id]
    decreases |pts|
  {
    if pts != [] {
      IdleIgnoresMoves(DragMove(r, pts[0].x, pts[0].y), pts[1..], id);
    }
  }

  /** Moves add, remove and restack no window. */
  lemma {:induction false} MovesKeepStacking(r: Registry, pts: seq<Point>)
    ensures KeepsStacking(r, Moves(r, pts))
    ensures Moves(r, pts).windows.Keys == r.windows.Keys && Moves(r, pts).nextId == r.nextId
    decreases |pts|
  {
    if pts != [] {
      MovesKeepStacking(DragMove(r, pts[0].x, pts[0].y), pts[1..]);
    }
  }

  /** The drag law: a press on the title bar at (ax, ay) runs the bar's drag
      listener and then the window's raise listener; the pointer then moves
      through `pts`.  The window ends on top, at its position at the press
      plus the pointer's total displacement, still dragging and unresized. */
  lemma DragLaw(r: Registry, id: WinId, ax: int, ay: int, pts: seq<Point>)
    requires Valid(r) && id in r.windows && pts != []
    ensures var w := r.windows[id];
            var p := pts[|pts| - 1];
            var m := Moves(Focus(DragStart(r, id, ax, ay), id), pts);
            OnTop(m, id) &&
            var w' := m.windows[id];
            w'.left == w.left + (p.x - ax) && w'.top == w.top + (p.y - ay) &&
            w'.width == w.width && w'.height == w.height && w'.zIndex > w.zIndex &&
            w'.drag.dragging
  {
    var pressed := Focus(DragStart(r, id, ax, ay), id);
    KeepsStackingValid(r, DragStart(r, id, ax, ay));
    FocusOnTop(DragStart(r, id, ax, ay), id);
    DragFollowsLastPointer(pressed, pts, id);
    MovesKeepStacking(pressed, pts);
    KeepsStackingOnTop(pressed, Moves(pressed, pts), id);
  }
}
