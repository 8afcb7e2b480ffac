# Desktop shell window manager, in Dafny

A model of the behaviour of a browser page that imitates a desktop: floating
application windows with a shared stacking counter, minimize / maximize /
close buttons and title-bar dragging; a right-click context menu placed by a
viewport clamp; and a cyclic wallpaper list. The browser is abstracted away.
The viewport size, the menu's measured size and the random start position of
a new window become parameters. Coordinates and sizes are whole pixels.

- `viewport.dfy`, module `Viewport`: the clamp that keeps the context menu
  off the right and bottom edges (there is no lower bound).
- `windows.dfy`, module `Windows`: windows, their drag state and the
  registry (live windows, stacking counter, next identity) as values. Every
  window handler is a transition function, proved here one step at a time.
- `sessions.dfy`, module `Sessions`: sequences of events. After any run the
  window raised last is on top, the counter has grown by the number of
  raises, and a drag is path-independent.
- `desktop.dfy`, module `Shell`: class `Desktop`, whose fields are the page's
  mutable variables and whose methods are its handlers. The window methods
  update the fields in place and are specified by the `Windows` transitions.

Where the design description and the code differ, the model follows the code:

- The code sets no size on a new window; the stylesheet does, and it is not
  part of this model. New windows are given 700x420, the size that restore
  sets.
- The design speaks of at most one drag at a time. In the code every window
  keeps its own `dragging` flag, and each has its own document-level
  move and release listeners. A move is therefore applied to every window
  that is dragging, and a release clears them all. The model does the same.

## Model

| member | source | states |
|---|---|---|
| Viewport.ClampAxis | script.js:67-72 | one axis: the result never overflows the limit; it equals the request exactly when the request does not overflow, and otherwise is `limit - size - 10` |
| Viewport.Clamp | script.js:65-75 | the clamped corner leaves no right or bottom overflow; each coordinate passes through iff it fits, else it becomes viewport minus size minus 10 |
| Viewport.ClampIdempotent | script.js:65-75 | clamping a clamped corner with the same sizes returns it unchanged |
| Viewport.ClampAxesIndependent | script.js:69-72 | x depends only on x, width and viewport width; y likewise |
| Viewport.ClampNoLowerBound | script.js:69-70 | no lower bound: an overflowing element wider than the viewport minus 10 gets a negative x |
| Viewport.ClampExamples | script.js:65-75 | 1000x700 viewport, 200x100 menu: (950,650) goes to (790,590), (10,10) stays, (900,10) goes to (790,10) |
| Windows.BodyText | script.js:137 | the window body is the content, or the title followed by " window content" when the content is empty |
| Windows.Open | script.js:119-139 | opening adds exactly one window under a fresh identity and leaves the others unchanged; the new window is at (x, y), 700x420, shown, not maximized, not dragging, with the given title and body text, and holds the counter's new value |
| Windows.Focus | script.js:169 | a press on a live window increments the counter and gives that window the new value, changing nothing else about it; other windows are unchanged; an absent window is a no-op |
| Windows.Close | script.js:142-143 | close removes exactly that window and leaves every other window and the counter unchanged |
| Windows.Minimize | script.js:146-149 | minimize only clears the window's `visible`; no stacking value changes |
| Windows.Toggled | script.js:153-166 | maximize: position (10,10), size viewport minus 20, flag set; restore: 700x420, position kept, flag cleared; z, visibility and drag state kept |
| Windows.ToggleMaximize | script.js:152-166 | the toggle applies to the pressed window only and changes no stacking value |
| Windows.DragStart | script.js:182-189 | a title-bar press sets dragging and records the pointer as anchor and the window's position as origin; no other window changes |
| Windows.Moved | script.js:191-195 | a non-dragging window is unchanged; a dragging window's displacement from its origin equals the pointer's displacement from the anchor; only left/top change |
| Windows.DragMove | script.js:191-195 | every window's move listener runs: each window becomes `Moved`, and no window is added, removed or restacked |
| Windows.MouseUp | script.js:197-200 | a release clears `dragging` on every window and changes nothing else |
| Windows.EmptyValid | script.js:119 | the registry at page load (counter 50, no windows) satisfies the stacking invariant |
| Windows.KeepsStackingValid | script.js:142-149 | a transition that adds no window and keeps stacking values (close, minimize, toggle, drag) preserves the invariant |
| Windows.KeepsStackingOnTop | script.js:142-149 | such a transition keeps the top window on top while it stays live |
| Windows.OpenOnTop | script.js:119-126 | a new window's value is above 50 and above every live window; the invariant is kept |
| Windows.FocusOnTop | script.js:169 | after a press the pressed live window is strictly above every other live window; the invariant is kept |
| Windows.CloseIdempotent | script.js:143 | closing twice equals closing once |
| Windows.CloseAbsent | script.js:143 | closing a window that is not live leaves the registry unchanged |
| Windows.MaximizeRoundTrip | script.js:153-166 | maximize then restore yields position (10,10) and size 700x420, not the position held before maximizing |
| Windows.MoveAfterMouseUp | script.js:191-200 | after a release a pointer move changes nothing |
| Sessions.Touch | script.js:126 | an event raises exactly one window iff it is a launch or a press on a live window |
| Sessions.StepProperties | script.js:121-200 | each handler keeps the invariant; a handler that raises nothing keeps all stacking values; one that raises puts that window on top and increments the counter by one |
| Sessions.RunValid | script.js:119-200 | the stacking invariant (values issued, above 50, pairwise distinct) holds after any sequence of events |
| Sessions.CounterCountsTouches | script.js:126 | after any sequence of events the counter has grown by exactly the number of raises |
| Sessions.UntouchedRunKeepsStacking | script.js:142-200 | a sequence with no raise adds no window and keeps every surviving window's stacking value |
| Sessions.LastTouchedOnTop | script.js:126 | after any sequence of events, the window raised last, if still live, is strictly above every other live window |
| Sessions.DragFollowsLastPointer | script.js:191-195 | while dragging, after any non-empty sequence of moves the window sits at origin + (last pointer - anchor), unclamped, whatever the path |
| Sessions.IdleIgnoresMoves | script.js:192 | a window that is not dragging is unchanged by any sequence of moves |
| Sessions.MovesKeepStacking | script.js:191-195 | any sequence of pointer moves adds, removes and restacks no window |
| Sessions.DragLaw | script.js:169-195 | a title-bar press at (ax, ay) (drag listener, then the raise listener) followed by moves: the window ends on top, at its press-time position plus (last pointer - (ax, ay)), still dragging, size unchanged |
| Shell.Desktop.Background | script.js:24-27 | the shown background is one of the three wallpapers |
| Shell.Desktop.constructor | script.js:23-35 | page load: counter 50, no windows, menu closed, first wallpaper |
| Shell.Desktop.OpenWindow | script.js:121-172 | performs `Windows.Open` in place; the new window is on top with a value above the old counter |
| Shell.Desktop.BringToFront | script.js:169 | performs `Windows.Focus` in place; the pressed live window ends on top |
| Shell.Desktop.CloseWindow | script.js:143 | performs `Windows.Close` in place; exactly that identity leaves the registry |
| Shell.Desktop.MinimizeWindow | script.js:147-149 | performs `Windows.Minimize` in place; the window is hidden |
| Shell.Desktop.ToggleMaximize | script.js:153-166 | performs `Windows.ToggleMaximize` in place; the maximized flag flips |
| Shell.Desktop.StartDrag | script.js:182-189 | performs `Windows.DragStart` in place; the window is dragging |
| Shell.Desktop.PointerMove | script.js:191-195 | performs `Windows.DragMove` in place |
| Shell.Desktop.PointerUp | script.js:197-200 | performs `Windows.MouseUp` in place; no window is dragging |
| Shell.Desktop.ShowMenu | script.js:52-57 | the menu is open at the clamped anchor, with no right or bottom overflow; re-showing only moves it |
| Shell.Desktop.HideMenu | script.js:59-63 | the menu is closed |
| Shell.Desktop.DocumentMouseDown | script.js:46-50 | after a press the menu is open iff it was open and the press was inside it |
| Shell.Desktop.IconContextMenu | script.js:105-111 | a right-click on an icon opens the menu at the clamp of (icon right + 6, icon top + 6) |
| Shell.Desktop.RightClick | script.js:37-50 | press then context-menu request: exactly one menu is open, at the clamp of the new anchor, whatever the state before |
| Shell.Desktop.NextWallpaper | script.js:81-85 | the wallpaper index advances by one modulo 3, stays in range, always changes, and the menu is closed |

## Left out

- The refresh entry (`location.reload`, script.js:87-89): it reloads the page, which is outside the model.
- The clock (script.js:244-255): it depends on timers and the system time.
- The start-menu toggle (script.js:207-224), icon selection highlighting (script.js:94-101) and the mapping from taskbar buttons to titles (script.js:229-239): visibility and styling toggles and a fixed lookup. `OpenWindow` takes the title and content directly.
- Element creation, the window's markup, aria attributes and the text-selection toggling during a drag: rendering only.
- The default title "App" for a missing argument: the model always receives a title.
- Shell.Desktop.OpenWindow: the start position is a parameter in [150, 350) x [100, 220), an integer rather than the random fraction the page draws.
- Windows.DragStart: the origin is the window's integer position; the page parses the style string and falls back to 0 if it cannot. With integer positions that fallback never applies.
- Fractional pixel sizes and positions: all coordinates and sizes are integers.
- Listeners left on the document after a window is removed: they only touch the removed element, so they have no visible effect.
- Event propagation order: each handler is a separate atomic step. A press on a title bar is modelled as `StartDrag` followed by `BringToFront`.
