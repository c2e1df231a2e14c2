/** Placement of the floating window (the position-persistence part of
    `AppDelegate`): edge snapping, the on-screen test, and saving and
    restoring the window origin under the three multi-display modes.
    Coordinates are reals; the main screen's visible frame is an input. */
module Placement {
  import opened Wrappers

  datatype Point = Point(x: real, y: real)
  datatype Size = Size(width: real, height: real)

  /** A rectangle by origin and size; `MinX` and `MaxX` are its edges. */
  datatype Rect = Rect(origin: Point, size: Size) {
    function MinX(): real { origin.x }
    function MinY(): real { origin.y }
    function MaxX(): real { origin.x + size.width }
    function MaxY(): real { origin.y + size.height }
  }

  datatype MultiDisplayMode = RememberPerDisplay | ConstrainToVisible | AlwaysCenter

  /** The settings the placement reads; `currentDisplayID` stands for what
      `getCurrentDisplayID()` answers. */
  datatype Settings = Settings(enableEdgeSnapping: bool, snapThreshold: real,
                               multiDisplayMode: MultiDisplayMode, currentDisplayID: nat)

  /** The stores a position is saved in: the two global keys
      `floatingWindowX` and `floatingWindowY` (read as 0 when absent), and
      the per-display positions. */
  datatype PositionStore = PositionStore(savedX: real, savedY: real, displayPositions: map<nat, Point>)

  const DefaultWindowSize := Size(100.0, 100.0)

  /** The window's size, or 100 by 100 when there is no window. */
  function WindowSizeOf(window: Option<Rect>): Size {
    if window.Some? then window.value.size else DefaultWindowSize
  }

  /** `inner` lies entirely inside `outer`, edges included. */
  predicate Inside(inner: Rect, outer: Rect) {
    outer.MinX() <= inner.MinX() && inner.MaxX() <= outer.MaxX()
    && outer.MinY() <= inner.MinY() && inner.MaxY() <= outer.MaxY()
  }

  /** `isPositionValid`: the window put at `p` lies within the visible
      frame; never valid without a screen. */
  function PositionValid(screen: Option<Rect>, size: Size, p: Point): (r: bool)
    ensures r <==> screen.Some? && Inside(Rect(p, size), screen.value)
  {
    match screen
    case None => false
    case Some(frame) =>
      p.x >= frame.MinX() && p.y >= frame.MinY()
      && p.x + size.width <= frame.MaxX() && p.y + size.height <= frame.MaxY()
  }

  /** Horizontal snapping: the left edge is checked first and wins. */
  function SnapX(frame: Rect, width: real, t: real, x: real): real {
    if x <= frame.MinX() + t then frame.MinX()
    else if x + width >= frame.MaxX() - t then frame.MaxX() - width
    else x
  }

  /** Vertical snapping: the top edge is checked first and wins. */
  function SnapY(frame: Rect, height: real, t: real, y: real): real {
    if y + height >= frame.MaxY() - t then frame.MaxY() - height
    else if y <= frame.MinY() + t then frame.MinY()
    else y
  }

  /** Reference definition of `snapToEdges`. */
  function SnapPosition(screen: Option<Rect>, settings: Option<Settings>, size: Size, p: Point): Point {
    if screen.None? || settings.None? || !settings.value.enableEdgeSnapping then p
    else Point(SnapX(screen.value, size.width, settings.value.snapThreshold, p.x),
               SnapY(screen.value, size.height, settings.value.snapThreshold, p.y))
  }

  predicate SnappingActive(screen: Option<Rect>, settings: Option<Settings>) {
    screen.Some? && settings.Some? && settings.value.enableEdgeSnapping
  }

  /** With snapping off, or without a screen or settings, nothing moves. */
  lemma SnapInactiveIsIdentity(screen: Option<Rect>, settings: Option<Settings>, size: Size, p: Point)
    requires !SnappingActive(screen, settings)
    ensures SnapPosition(screen, settings, size, p) == p
  {
  }

  /** Each coordinate lands on an edge or stays, and moves only when it is
      within the threshold of the edge it lands on; `x` and `y` are decided
      independently of each other. */
  lemma SnapLandsOnEdges(screen: Option<Rect>, settings: Option<Settings>, size: Size, p: Point, other: Point)
    requires SnappingActive(screen, settings)
    ensures var q := SnapPosition(screen, settings, size, p);
      var f := screen.value; var t := settings.value.snapThreshold;
      && (q.x == p.x || (q.x == f.MinX() && p.x <= f.MinX() + t)
          || (q.x == f.MaxX() - size.width && p.x + size.width >= f.MaxX() - t))
      && (q.y == p.y || (q.y == f.MaxY() - size.height && p.y + size.height >= f.MaxY() - t)
          || (q.y == f.MinY() && p.y <= f.MinY() + t))
    ensures SnapPosition(screen, settings, size, p).x == SnapPosition(screen, settings, size, Point(p.x, other.y)).x
    ensures SnapPosition(screen, settings, size, p).y == SnapPosition(screen, settings, size, Point(other.x, p.y)).y
  {
  }

  /** Close to both edges at once (a window almost as wide as the screen),
      the left edge wins; close to both the top and the bottom, the top
      wins. */
  lemma SnapPrecedence(screen: Option<Rect>, settings: Option<Settings>, size: Size, p: Point)
    requires SnappingActive(screen, settings)
    requires p.x <= screen.value.MinX() + settings.value.snapThreshold
    requires p.y <= screen.value.MinY() + settings.value.snapThreshold
    requires p.y + size.height >= screen.value.MaxY() - settings.value.snapThreshold
    ensures SnapPosition(screen, settings, size, p)
         == Point(screen.value.MinX(), screen.value.MaxY() - size.height)
  {
  }

  /** Snapping never moves an on-screen window off the screen. */
  lemma {:induction false} SnapKeepsValid(screen: Option<Rect>, settings: Option<Settings>, size: Size, p: Point)
    requires PositionValid(screen, size, p)
    ensures PositionValid(screen, size, SnapPosition(screen, settings, size, p))
  {
    if SnappingActive(screen, settings) {
      var f := screen.value;
      var q := SnapPosition(screen, settings, size, p);
      assert f.MinX() <= q.x && q.x + size.width <= f.MaxX();
      assert f.MinY() <= q.y && q.y + size.height <= f.MaxY();
    }
  }

  /** With a non-negative threshold and a window that fits the screen,
      snapping always ends on screen, wherever the window was dropped. */
  lemma {:induction false} SnapBringsOnScreen(screen: Option<Rect>, settings: Option<Settings>, size: Size, p: Point)
    requires SnappingActive(screen, settings) && settings.value.snapThreshold >= 0.0
    requires 0.0 <= size.width <= screen.value.size.width
    requires 0.0 <= size.height <= screen.value.size.height
    ensures PositionValid(screen, size, SnapPosition(screen, settings, size, p))
  {
    var f := screen.value;
    var q := SnapPosition(screen, settings, size, p);
    assert f.MinX() <= q.x && q.x + size.width <= f.MaxX();
    assert f.MinY() <= q.y && q.y + size.height <= f.MaxY();
  }

  /** When the screen is wider and taller than the window by more than the
      threshold, a snapped position snaps to itself, so moving the window
      there does not move it again. */
  lemma {:induction false} SnapIdempotent(screen: Option<Rect>, settings: Option<Settings>, size: Size, p: Point)
    requires SnappingActive(screen, settings) && settings.value.snapThreshold >= 0.0
    requires screen.value.size.width > size.width + settings.value.snapThreshold
    requires screen.value.size.height > size.height + settings.value.snapThreshold
    ensures var q := SnapPosition(screen, settings, size, p);
      SnapPosition(screen, settings, size, q) == q
  {
    var f := screen.value;
    var t := settings.value.snapThreshold;
    var q := SnapPosition(screen, settings, size, p);
    assert SnapX(f, size.width, t, q.x) == q.x;
    assert SnapY(f, size.height, t, q.y) == q.y;
  }

  /** On any screen, a second snap may still move the window (from the
      right edge to the left one, or from the bottom to the top), but a
      third never does. */
  lemma {:induction false} SnapSettlesAfterTwo(screen: Option<Rect>, settings: Option<Settings>, size: Size, p: Point)
    requires SnappingActive(screen, settings) && settings.value.snapThreshold >= 0.0
    ensures var q := SnapPosition(screen, settings, size, SnapPosition(screen, settings, size, p));
      SnapPosition(screen, settings, size, q) == q
  {
    var f := screen.value;
    var t := settings.value.snapThreshold;
    var q1 := SnapPosition(screen, settings, size, p);
    var q2 := SnapPosition(screen, settings, size, q1);
    assert SnapX(f, size.width, t, q2.x) == q2.x;
    assert SnapY(f, size.height, t, q2.y) == q2.y;
  }

  /** Reference definition of `loadWindowPosition`. */
  function Load(settings: Option<Settings>, screen: Option<Rect>, size: Size, store: PositionStore): (r: Option<Point>)
    ensures r.Some? ==> PositionValid(screen, size, r.value)
    ensures settings.None? || settings.value.multiDisplayMode == AlwaysCenter ==> r.None?
    ensures settings.Some? && settings.value.multiDisplayMode == ConstrainToVisible ==>
              r == (if (store.savedX != 0.0 || store.savedY != 0.0)
                       && PositionValid(screen, size, Point(store.savedX, store.savedY))
                    then Some(Point(store.savedX, store.savedY)) else None)
    ensures settings.Some? && settings.value.multiDisplayMode == RememberPerDisplay ==>
              r == (if settings.value.currentDisplayID in store.displayPositions
                       && PositionValid(screen, size, store.displayPositions[settings.value.currentDisplayID])
                    then Some(store.displayPositions[settings.value.currentDisplayID]) else None)
  {
    match settings
    case None => None
    case Some(s) =>
      match s.multiDisplayMode
      case RememberPerDisplay =>
        if s.currentDisplayID in store.displayPositions then
          var position := store.displayPositions[s.currentDisplayID];
          if PositionValid(screen, size, position) then Some(position) else None
        else None
      case ConstrainToVisible =>
        if store.savedX != 0.0 || store.savedY != 0.0 then
          var point := Point(store.savedX, store.savedY);
          if PositionValid(screen, size, point) then Some(point) else None
        else None
      case AlwaysCenter => None
  }

  /** Reference definition of `saveWindowPosition`: the per-display store in
      `rememberPerDisplay`, the two global keys otherwise. */
  function Save(settings: Option<Settings>, store: PositionStore, point: Point): (r: PositionStore)
    ensures settings.None? ==> r == store
    ensures settings.Some? && settings.value.multiDisplayMode == RememberPerDisplay ==>
              && r.savedX == store.savedX && r.savedY == store.savedY
              && r.displayPositions.Keys == store.displayPositions.Keys + {settings.value.currentDisplayID}
              && r.displayPositions[settings.value.currentDisplayID] == point
              && (forall d :: d in store.displayPositions && d != settings.value.currentDisplayID
                    ==> r.displayPositions[d] == store.displayPositions[d])
    ensures settings.Some? && settings.value.multiDisplayMode != RememberPerDisplay ==>
              r == PositionStore(point.x, point.y, store.displayPositions)
  {
    match settings
    case None => store
    case Some(s) =>
      match s.multiDisplayMode
      case RememberPerDisplay => store.(displayPositions := store.displayPositions[s.currentDisplayID := point])
      case _ => PositionStore(point.x, point.y, store.displayPositions)
  }

  /** What a later launch restores after a save: the point itself while it
      is still on screen, except in `alwaysCenter`, and except that in
      `constrainToVisible` a window saved at (0, 0) is taken for "nothing
      saved" and is not restored. */
  lemma {:induction false} SaveThenLoad(settings: Option<Settings>, screen: Option<Rect>, size: Size, store: PositionStore, point: Point)
    ensures Load(settings, screen, size, Save(settings, store, point))
         == if settings.None? || settings.value.multiDisplayMode == AlwaysCenter then None
            else if settings.value.multiDisplayMode == ConstrainToVisible && point == Point(0.0, 0.0) then None
            else if PositionValid(screen, size, point) then Some(point)
            else None
  {
    if settings.Some? && settings.value.multiDisplayMode == ConstrainToVisible {
      var saved := Save(settings, store, point);
      assert Point(saved.savedX, saved.savedY) == point;
    }
  }

  /** A window dropped anywhere and snapped is restored where it was
      snapped to, on a screen it fits, outside `alwaysCenter`, unless it
      ends at (0, 0) in `constrainToVisible`. */
  lemma {:induction false} SnappedWindowIsRestored(screen: Option<Rect>, settings: Option<Settings>, size: Size, store: PositionStore, p: Point)
    requires SnappingActive(screen, settings) && settings.value.snapThreshold >= 0.0
    requires 0.0 <= size.width <= screen.value.size.width
    requires 0.0 <= size.height <= screen.value.size.height
    requires settings.value.multiDisplayMode != AlwaysCenter
    requires settings.value.multiDisplayMode == ConstrainToVisible ==> SnapPosition(screen, settings, size, p) != Point(0.0, 0.0)
    ensures Load(settings, screen, size, Save(settings, store, SnapPosition(screen, settings, size, p)))
         == Some(SnapPosition(screen, settings, size, p))
  {
    SnapBringsOnScreen(screen, settings, size, p);
    SaveThenLoad(settings, screen, size, store, SnapPosition(screen, settings, size, p));
  }

  /** The part of `AppDelegate` that places the floating window. */
  class WindowPlacement {
    /** The floating window's frame, if the window exists. */
    var floatingWindow: Option<Rect>
    /** The visible frame of the main screen, if there is one. */
    var mainScreen: Option<Rect>
    var settings: Option<Settings>
    var savedX: real
    var savedY: real
    var displayPositions: map<nat, Point>

    constructor (mainScreen: Option<Rect>, settings: Option<Settings>, store: PositionStore)
      ensures floatingWindow.None? && this.mainScreen == mainScreen && this.settings == settings
      ensures Store() == store
    {
      floatingWindow := None;
      this.mainScreen := mainScreen;
      this.settings := settings;
      savedX := store.savedX;
      savedY := store.savedY;
      displayPositions := store.displayPositions;
    }

    function Store(): PositionStore
      reads this
    {
      PositionStore(savedX, savedY, displayPositions)
    }

    function WindowSize(): Size
      reads this
    {
      WindowSizeOf(floatingWindow)
    }

    /** `isPositionValid`. */
    function IsPositionValid(point: Point): (r: bool)
      reads this
      ensures r <==> mainScreen.Some? && Inside(Rect(point, WindowSize()), mainScreen.value)
    {
      PositionValid(mainScreen, WindowSize(), point)
    }

    /** `loadWindowPosition`. */
    function LoadWindowPosition(): (r: Option<Point>)
      reads this
      ensures r.Some? ==> IsPositionValid(r.value)
      ensures settings.Some? && settings.value.multiDisplayMode == AlwaysCenter ==> r.None?
      ensures (settings.Some? && settings.value.multiDisplayMode == ConstrainToVisible
               && savedX == 0.0 && savedY == 0.0) ==> r.None?
    {
      Load(settings, mainScreen, WindowSize(), Store())
    }

    /** `saveWindowPosition`. */
    method SaveWindowPosition(point: Point)
      modifies this
      ensures Store() == Save(old(settings), old(Store()), point)
      ensures floatingWindow == old(floatingWindow) && mainScreen == old(mainScreen) && settings == old(settings)
    {
      if settings.None? {
        return;
      }
      match settings.value.multiDisplayMode
      case RememberPerDisplay =>
        var displayID := settings.value.currentDisplayID;
        displayPositions := displayPositions[displayID := point];
      case ConstrainToVisible =>
        savedX := point.x;
        savedY := point.y;
      case AlwaysCenter =>
        savedX := point.x;
        savedY := point.y;
    }

    /** `snapToEdges`. */
    method SnapToEdges(position: Point) returns (newPosition: Point)
      ensures newPosition == SnapPosition(mainScreen, settings, WindowSize(), position)
    {
      if mainScreen.None? || settings.None? || !settings.value.enableEdgeSnapping {
        return position;
      }
      var screenFrame := mainScreen.value;
      var windowSize := WindowSize();
      var snapThreshold := settings.value.snapThreshold;
      newPosition := position;
      if position.x <= screenFrame.MinX() + snapThreshold {
        newPosition := newPosition.(x := screenFrame.MinX());
      } else if position.x + windowSize.width >= screenFrame.MaxX() - snapThreshold {
        newPosition := newPosition.(x := screenFrame.MaxX() - windowSize.width);
      }
      if position.y + windowSize.height >= screenFrame.MaxY() - snapThreshold {
        newPosition := newPosition.(y := screenFrame.MaxY() - windowSize.height);
      } else if position.y <= screenFrame.MinY() + snapThreshold {
        newPosition := newPosition.(y := screenFrame.MinY());
      }
    }

    /** `windowDidMove`: the window is moved to its snapped origin when that
        differs, and the snapped origin, not the dropped one, is saved. */
    method WindowDidMove()
      modifies this
      ensures old(floatingWindow).None? ==> unchanged(this)
      ensures old(floatingWindow).Some? ==>
        var snapped := SnapPosition(mainScreen, settings, old(WindowSize()), old(floatingWindow).value.origin);
        && floatingWindow == Some(Rect(snapped, old(floatingWindow).value.size))
        && Store() == Save(settings, old(Store()), snapped)
      ensures mainScreen == old(mainScreen) && settings == old(settings)
    {
      if floatingWindow.None? {
        return;
      }
      var window := floatingWindow.value;
      var snappedPosition := SnapToEdges(window.origin);
      if snappedPosition != window.origin {
        floatingWindow := Some(Rect(snappedPosition, window.size));
      }
      SaveWindowPosition(snappedPosition);
    }

    /** The placement step of `setupFloatingWindow`: the window of side
        `buttonSize` goes to the restored position, or else to the middle of
        the visible frame's size (measured from (0, 0), not from the frame's
        origin); with neither, it stays at (0, 0). */
    method PlaceFloatingWindow(buttonSize: real)
      modifies this
      ensures var size := Size(buttonSize, buttonSize);
        var restored := Load(settings, mainScreen, size, Store());
        floatingWindow == Some(Rect(
          if restored.Some? then restored.value
          else if mainScreen.Some? then Point((mainScreen.value.size.width - buttonSize) / 2.0,
                                              (mainScreen.value.size.height - buttonSize) / 2.0)
          else Point(0.0, 0.0),
          size))
      ensures floatingWindow.Some? && (Load(settings, mainScreen, WindowSize(), Store()).Some? ==> IsPositionValid(floatingWindow.value.origin))
      ensures mainScreen == old(mainScreen) && settings == old(settings) && Store() == old(Store())
    {
      floatingWindow := Some(Rect(Point(0.0, 0.0), Size(buttonSize, buttonSize)));
      var savedPosition := LoadWindowPosition();
      if savedPosition.Some? {
        floatingWindow := Some(Rect(savedPosition.value, floatingWindow.value.size));
      } else if mainScreen.Some? {
        var screenFrame := mainScreen.value;
        var windowSize := floatingWindow.value.size;
        var x := (screenFrame.size.width - windowSize.width) / 2.0;
        var y := (screenFrame.size.height - windowSize.height) / 2.0;
        floatingWindow := Some(Rect(Point(x, y), windowSize));
      }
    }
  }
}
