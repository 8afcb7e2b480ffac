/** The desktop page's mutable state and its event handlers.

    The page keeps its state in variables captured by its handlers: the
    stacking counter, the open windows (each with its own drag state), the
    context menu's open flag and position, and the current wallpaper.  Here
    they are the fields of one object, and each handler is a method that
    updates them in place.  The window handlers are specified by the
    transitions of module Windows; the viewport size, the menu's measured
    size and the random start position of a window are parameters. */
module Shell {
  import opened Viewport
  import Windows

  /** The page's three backgrounds, in rotation order. */
  const Wallpapers: seq<string> := [
    "linear-gradient(180deg,#0a3b78 0%, #08325f 100%)",
    "url('/mnt/data/4ee4b356-1478-428e-836a-9de5fa88d3ff.png')",
    "linear-gradient(180deg,#1f4068 0%, #203a5a 100%)"
  ]

  /** Offset of the context menu from an icon's top-right corner. */
  const IconMenuOffset := 6

  class Desktop {
    var z: int
    var nextId: Windows.WinId
    var windows: map<Windows.WinId, Windows.Window>
    var menuOpen: bool
    var menuPos: Point
    var wallpaper: nat

    /** The window registry held by the fields. */
    function Registry(): Windows.Registry
      reads this
    {
      Windows.Registry(z, nextId, windows)
    }

    ghost predicate Valid()
      reads this
    {
      Windows.Valid(Registry()) && wallpaper < |Wallpapers|
    }

    /** The background currently shown. */
    function Background(): (b: string)
      reads this
      requires Valid()
      ensures b in Wallpapers
    {
      Wallpapers[wallpaper]
    }

    /** Page load: no windows, the menu closed, the first wallpaper shown. */
    constructor ()
      ensures Valid()
      ensures Registry() == Windows.Empty
      ensures !menuOpen && wallpaper == 0
    {
      z := Windows.BaseZ;
      nextId := 0;
      windows := map[];
      menuOpen := false;
      menuPos := Point(0, 0);
      wallpaper := 0;
    }

    // -------------------------------------------------------------------
    // Windows

    /** Opens a window at (x, y) with the next stacking value and returns
        its identity; the new window is on top. */
    method OpenWindow(title: string, content: string, x: int, y: int) returns (id: Windows.WinId)
      requires Valid()
      requires 150 <= x < 350 && 100 <= y < 220
      modifies this`z, this`nextId, this`windows
      ensures Valid()
      ensures Registry() == Windows.Open(old(Registry()), title, content, x, y)
      ensures id == old(nextId) && id !in old(windows)
      ensures Windows.OnTop(Registry(), id) && windows[id].zIndex == z > old(z)
    {
      ghost var before := Registry();
      z := z + 1;
      id := nextId;
      nextId := nextId + 1;
      var w := Windows.Window(title, Windows.BodyText(title, content), x, y,
                              Windows.DefaultWidth, Windows.DefaultHeight,
                              z, true, false, Windows.Idle);
      windows := windows[id := w];
      Windows.OpenOnTop(before, title, content, x, y);
    }

    /** A press on a window raises it above every other live window. */
    method BringToFront(id: Windows.WinId)
      requires Valid()
      modifies this`z, this`windows
      ensures Valid()
      ensures Registry() == Windows.Focus(old(Registry()), id)
      ensures id in windows ==> Windows.OnTop(Registry(), id) && windows[id].zIndex == z > old(z)
    {
      ghost var before := Registry();
      if id in windows {
        z := z + 1;
        windows := windows[id := windows[id].(zIndex := z)];
      }
      Windows.FocusOnTop(before, id);
    }

    /** The close button: the window leaves the registry. */
    method CloseWindow(id: Windows.WinId)
      requires Valid()
      modifies this`windows
      ensures Valid()
      ensures Registry() == Windows.Close(old(Registry()), id)
      ensures windows.Keys == old(windows.Keys) - {id}
    {
      ghost var before := Registry();
      windows := windows - {id};
      Windows.KeepsStackingValid(before, Registry());
    }

    /** The minimize button: the window is hidden, nothing else changes. */
    method MinimizeWindow(id: Windows.WinId)
      requires Valid()
      modifies this`windows
      ensures Valid()
      ensures Registry() == Windows.Minimize(old(Registry()), id)
      ensures id in windows ==> !windows[id].visible
    {
      ghost var before := Registry();
      if id in windows {
        windows := windows[id := windows[id].(visible := false)];
      }
      Windows.KeepsStackingValid(before, Registry());
    }

    /** The maximize button, in a (vw, vh) viewport. */
    method ToggleMaximize(id: Windows.WinId, vw: int, vh: int)
      requires Valid()
      modifies this`windows
      ensures Valid()
      ensures Registry() == Windows.ToggleMaximize(old(Registry()), id, vw, vh)
      ensures id in windows ==> windows[id].maximized == !old(windows[id].maximized)
    {
      ghost var before := Registry();
      if id in windows {
        var w := windows[id];
        if w.maximized {
          w := w.(width := Windows.DefaultWidth, height := Windows.DefaultHeight, maximized := false);
        } else {
          w := w.(left := Windows.Inset, top := Windows.Inset,
                  width := vw - 2 * Windows.Inset, height := vh - 2 * Windows.Inset,
                  maximized := true);
        }
        windows := windows[id := w];
      }
      Windows.KeepsStackingValid(before, Registry());
    }

    /** A press on the title bar at (px, py) starts dragging that window. */
    method StartDrag(id: Windows.WinId, px: int, py: int)
      requires Valid()
      modifies this`windows
      ensures Valid()
      ensures Registry() == Windows.DragStart(old(Registry()), id, px, py)
      ensures id in windows ==> windows[id].drag.dragging
    {
      ghost var before := Registry();
      if id in windows {
        var w := windows[id];
        windows := windows[id := w.(drag := Windows.Drag(true, Point(px, py), Point(w.left, w.top)))];
      }
      Windows.KeepsStackingValid(before, Registry());
    }

    /** A pointer move: every dragging window follows the pointer. */
    method PointerMove(px: int, py: int)
      requires Valid()
      modifies this`windows
      ensures Valid()
      ensures Registry() == Windows.DragMove(old(Registry()), px, py)
    {
      ghost var before := Registry();
      windows := map id | id in windows :: Windows.Moved(windows[id], px, py);
      Windows.KeepsStackingValid(before, Registry());
    }

    /** A pointer release anywhere: every drag ends. */
    method PointerUp()
      requires Valid()
      modifies this`windows
      ensures Valid()
      ensures Registry() == Windows.MouseUp(old(Registry()))
      ensures forall id :: id in windows ==> !windows[id].drag.dragging
    {
      ghost var before := Registry();
      windows := map id | id in windows :: windows[id].(drag := windows[id].drag.(dragging := false));
      Windows.KeepsStackingValid(before, Registry());
    }

    // -------------------------------------------------------------------
    // Context menu and wallpaper

    /** Shows the menu, of measured size (mw, mh), at (x, y) pulled inside a
        (vw, vh) viewport.  Showing it again while open only moves it. */
    method ShowMenu(x: int, y: int, mw: int, mh: int, vw: int, vh: int)
      modifies this`menuOpen, this`menuPos
      ensures menuOpen
      ensures menuPos == Clamp(x, y, mw, mh, vw, vh)
      ensures menuPos.x + mw <= vw && menuPos.y + mh <= vh
    {
      menuOpen := true;
      menuPos := Clamp(x, y, mw, mh, vw, vh);
    }

    /** Hides the menu; its position is kept. */
    method HideMenu()
      modifies this`menuOpen
      ensures !menuOpen
    {
      menuOpen := false;
    }

    /** A press anywhere on the page: if the menu is open and the press is
        outside it, the menu is hidden. */
    method DocumentMouseDown(insideMenu: bool)
      modifies this`menuOpen
      ensures menuOpen == (old(menuOpen) && insideMenu)
    {
      if menuOpen && !insideMenu {
        HideMenu();
      }
    }

    /** A right-click on an icon whose bounding box has its right edge at
        `iconRight` and its top at `iconTop` shows the menu beside it. */
    method IconContextMenu(iconRight: int, iconTop: int, mw: int, mh: int, vw: int, vh: int)
      modifies this`menuOpen, this`menuPos
      ensures menuOpen
      ensures menuPos == Clamp(iconRight + IconMenuOffset, iconTop + IconMenuOffset, mw, mh, vw, vh)
    {
      ShowMenu(iconRight + IconMenuOffset, iconTop + IconMenuOffset, mw, mh, vw, vh);
    }

    /** A right-click on the desktop at (x, y): the page first sees the press,
        which may hide an open menu, then the context-menu request.  Whatever
        the menu's state before, exactly one menu is open afterwards, at the
        new anchor. */
    method RightClick(x: int, y: int, insideMenu: bool, mw: int, mh: int, vw: int, vh: int)
      modifies this`menuOpen, this`menuPos
      ensures menuOpen
      ensures menuPos == Clamp(x, y, mw, mh, vw, vh)
    {
      DocumentMouseDown(insideMenu);
      ShowMenu(x, y, mw, mh, vw, vh);
    }

    /** The menu's "next background" entry: advance the wallpaper cyclically
        and hide the menu. */
    method NextWallpaper()
      requires Valid()
      modifies this`wallpaper, this`menuOpen
      ensures Valid()
      ensures wallpaper == (old(wallpaper) + 1) % |Wallpapers|
      ensures wallpaper != old(wallpaper)
      ensures !menuOpen
    {
      wallpaper := (wallpaper + 1) % |Wallpapers|;
      HideMenu();
    }
  }
}
