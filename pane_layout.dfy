/** Drag-to-resize of the request pane. `Layout` is the component's layout
    state and the functions below are its transitions; `PaneResizer` is the
    same state as the component keeps it (state setters and a mutable ref),
    with each handler proved to perform the matching transition. */
module PaneLayout {
  import opened Base
  import opened Entities

  const MIN_LEFT_PANE_WIDTH: real := 300.0
  const MIN_RIGHT_PANE_WIDTH: real := 350.0
  const MIN_TOP_PANE_HEIGHT: real := 150.0
  const MIN_BOTTOM_PANE_HEIGHT: real := 150.0
  /** The default horizontal split puts (available width) / 2.2 in the request pane. */
  const SPLIT_DIVISOR: real := 2.2

  datatype Orientation = Horizontal | Vertical

  /** A bounding client rectangle. */
  datatype Rect = Rect(left: real, top: real, width: real, height: real)

  /** `dragging`, `leftPaneWidth`, `topPaneHeight` and the ref `dragOffset.{x,y}`. */
  datatype Layout = Layout(
    dragging: bool,
    leftPaneWidth: real,
    topPaneHeight: real,
    dragOffsetX: real,
    dragOffsetY: real)

  /** The store action `updateRequestPaneTabWidth({uid, requestPaneWidth})`. */
  datatype PaneWidthUpdate = PaneWidthUpdate(uid: Option<Uid>, requestPaneWidth: real)

  /** The new layout after a mouse-up and the action it dispatches, if any. */
  datatype Release = Release(layout: Layout, persisted: Option<PaneWidthUpdate>)

  /** `preferences?.layout?.responsePaneOrientation === 'vertical'`. */
  function OrientationOf(preference: Option<string>): (o: Orientation)
    ensures o == Vertical <==> preference == Some("vertical")
  {
    if preference == Some("vertical") then Vertical else Horizontal
  }

  /** The half-ish split used for the request pane in horizontal mode. */
  function DefaultWidth(screenWidth: real, asideWidth: real): (w: real)
    ensures w * SPLIT_DIVISOR == screenWidth - asideWidth
  {
    (screenWidth - asideWidth) / SPLIT_DIVISOR
  }

  /** A request-pane width that leaves both panes their minimum in `main`. */
  predicate WidthInBounds(w: real, main: Rect)
  {
    MIN_LEFT_PANE_WIDTH <= w <= main.width - MIN_RIGHT_PANE_WIDTH
  }

  /** A request-pane height that leaves both panes their minimum in `main`. */
  predicate HeightInBounds(h: real, main: Rect)
  {
    MIN_TOP_PANE_HEIGHT <= h <= main.height - MIN_BOTTOM_PANE_HEIGHT
  }

  /** The layout state on first render. */
  function Initial(tab: Option<Tab>, screenWidth: real, asideWidth: real): (s: Layout)
    ensures !s.dragging && s.dragOffsetX == 0.0 && s.dragOffsetY == 0.0
    ensures tab.Some? && TruthyNumber(tab.value.requestPaneWidth) ==>
      s.leftPaneWidth == tab.value.requestPaneWidth.value
    ensures !(tab.Some? && TruthyNumber(tab.value.requestPaneWidth)) ==>
      s.leftPaneWidth * SPLIT_DIVISOR == screenWidth - asideWidth
    ensures tab.Some? && TruthyNumber(tab.value.requestPaneHeight) ==>
      s.topPaneHeight == tab.value.requestPaneHeight.value
    ensures !(tab.Some? && TruthyNumber(tab.value.requestPaneHeight)) ==>
      s.topPaneHeight == MIN_TOP_PANE_HEIGHT
  {
    var w := if tab.Some? && TruthyNumber(tab.value.requestPaneWidth) then tab.value.requestPaneWidth.value
             else DefaultWidth(screenWidth, asideWidth);
    var h := if tab.Some? && TruthyNumber(tab.value.requestPaneHeight) then tab.value.requestPaneHeight.value
             else MIN_TOP_PANE_HEIGHT;
    Layout(false, w, h, 0.0, 0.0)
  }

  /** The effect run on mount and when the orientation, the screen width or the
      sidebar width change; `main` is absent while the split view is not mounted. */
  function Reinitialized(s: Layout, o: Orientation, main: Option<Rect>, screenWidth: real, asideWidth: real): (t: Layout)
    ensures main.None? ==> t == s
    ensures t.dragging == s.dragging && t.dragOffsetX == s.dragOffsetX && t.dragOffsetY == s.dragOffsetY
    ensures main.Some? && o == Vertical ==>
      t.topPaneHeight * 2.0 == main.value.height && t.leftPaneWidth == main.value.width
    ensures main.Some? && o == Horizontal ==>
      t.leftPaneWidth * SPLIT_DIVISOR == screenWidth - asideWidth && t.topPaneHeight == s.topPaneHeight
  {
    if main.None? then s
    else if o == Vertical then s.(topPaneHeight := main.value.height / 2.0, leftPaneWidth := main.value.width)
    else s.(leftPaneWidth := DefaultWidth(screenWidth, asideWidth))
  }

  /** Mouse-down on the drag bar `bar`: start dragging and record the pointer's
      offset into the bar along the orientation's axis only. */
  function Pressed(s: Layout, o: Orientation, clientX: real, clientY: real, bar: Rect): (t: Layout)
    ensures t.dragging
    ensures t.leftPaneWidth == s.leftPaneWidth && t.topPaneHeight == s.topPaneHeight
    ensures o == Vertical ==> t.dragOffsetY == clientY - bar.top && t.dragOffsetX == s.dragOffsetX
    ensures o == Horizontal ==> t.dragOffsetX == clientX - bar.left && t.dragOffsetY == s.dragOffsetY
  {
    if o == Vertical then s.(dragging := true, dragOffsetY := clientY - bar.top)
    else s.(dragging := true, dragOffsetX := clientX - bar.left)
  }

  /** The width a horizontal move proposes. */
  function CandidateWidth(s: Layout, clientX: real, main: Rect): real
  {
    clientX - main.left - s.dragOffsetX
  }

  /** The height a vertical move proposes. */
  function CandidateHeight(s: Layout, clientY: real, main: Rect): real
  {
    clientY - main.top - s.dragOffsetY
  }

  /** Mouse-move: while dragging, the candidate size along the orientation's
      axis is taken exactly when it leaves both panes their minimum. */
  function Moved(s: Layout, o: Orientation, clientX: real, clientY: real, main: Option<Rect>): (t: Layout)
    ensures !s.dragging || main.None? ==> t == s
    ensures t.dragging == s.dragging && t.dragOffsetX == s.dragOffsetX && t.dragOffsetY == s.dragOffsetY
    ensures o == Horizontal ==> t.topPaneHeight == s.topPaneHeight
    ensures o == Vertical ==> t.leftPaneWidth == s.leftPaneWidth
    ensures s.dragging && main.Some? && o == Horizontal ==>
      (WidthInBounds(CandidateWidth(s, clientX, main.value), main.value) ==>
         t.leftPaneWidth == CandidateWidth(s, clientX, main.value))
      && (!WidthInBounds(CandidateWidth(s, clientX, main.value), main.value) ==>
         t.leftPaneWidth == s.leftPaneWidth)
    ensures s.dragging && main.Some? && o == Vertical ==>
      (HeightInBounds(CandidateHeight(s, clientY, main.value), main.value) ==>
         t.topPaneHeight == CandidateHeight(s, clientY, main.value))
      && (!HeightInBounds(CandidateHeight(s, clientY, main.value), main.value) ==>
         t.topPaneHeight == s.topPaneHeight)
  {
    if !s.dragging || main.None? then s
    else if o == Vertical then
      var h := CandidateHeight(s, clientY, main.value);
      if h < MIN_TOP_PANE_HEIGHT || h > main.value.height - MIN_BOTTOM_PANE_HEIGHT then s
      else s.(topPaneHeight := h)
    else
      var w := CandidateWidth(s, clientX, main.value);
      if w < MIN_LEFT_PANE_WIDTH || w > main.value.width - MIN_RIGHT_PANE_WIDTH then s
      else s.(leftPaneWidth := w)
  }

  /** Mouse-up: while dragging, stop dragging; in horizontal mode only, persist
      the pointer's distance from the container's left edge as the tab's width. */
  function Released(s: Layout, o: Orientation, clientX: real, main: Option<Rect>, activeTabUid: Option<Uid>): (r: Release)
    ensures !s.dragging || main.None? ==> r.layout == s && r.persisted.None?
    ensures s.dragging && main.Some? ==> r.layout == s.(dragging := false)
    ensures s.dragging && main.Some? ==> (r.persisted.Some? <==> o == Horizontal)
    ensures r.persisted.Some? ==>
      main.Some? && r.persisted.value == PaneWidthUpdate(activeTabUid, clientX - main.value.left)
  {
    if !s.dragging || main.None? then Release(s, None)
    else
      match o
      case Vertical => Release(s.(dragging := false), None)
      case Horizontal => Release(s.(dragging := false), Some(PaneWidthUpdate(activeTabUid, clientX - main.value.left)))
  }

  /** The size applied to the request pane: `Math.max(state, minimum)` along the axis. */
  function RenderedSize(s: Layout, o: Orientation): (px: real)
    ensures o == Horizontal ==>
      px >= MIN_LEFT_PANE_WIDTH && px >= s.leftPaneWidth && (px == s.leftPaneWidth || px == MIN_LEFT_PANE_WIDTH)
    ensures o == Vertical ==>
      px >= MIN_TOP_PANE_HEIGHT && px >= s.topPaneHeight && (px == s.topPaneHeight || px == MIN_TOP_PANE_HEIGHT)
  {
    if o == Vertical then
      if s.topPaneHeight > MIN_TOP_PANE_HEIGHT then s.topPaneHeight else MIN_TOP_PANE_HEIGHT
    else
      if s.leftPaneWidth > MIN_LEFT_PANE_WIDTH then s.leftPaneWidth else MIN_LEFT_PANE_WIDTH
  }

  /** One mouse-move event of a drag. */
  datatype Pointer = Pointer(clientX: real, clientY: real)

  /** The layout after a run of mouse-move events inside the same container. */
  function MovedAll(s: Layout, o: Orientation, moves: seq<Pointer>, main: Rect): Layout
    decreases |moves|
  {
    if |moves| == 0 then s
    else MovedAll(Moved(s, o, moves[0].clientX, moves[0].clientY, Some(main)), o, moves[1..], main)
  }

  /** However long a drag runs, the width it leaves is the one it started from
      or one that leaves both panes their minimum; the height never changes. */
  lemma {:induction false} HorizontalDragKeepsBounds(s: Layout, moves: seq<Pointer>, main: Rect)
    ensures var t := MovedAll(s, Horizontal, moves, main);
      (t.leftPaneWidth == s.leftPaneWidth || WidthInBounds(t.leftPaneWidth, main))
      && t.topPaneHeight == s.topPaneHeight && t.dragging == s.dragging
    decreases |moves|
  {
    if |moves| > 0 {
      var s' := Moved(s, Horizontal, moves[0].clientX, moves[0].clientY, Some(main));
      HorizontalDragKeepsBounds(s', moves[1..], main);
    }
  }

  /** The vertical counterpart: the height ends where it started or in bounds,
      and the width never changes. */
  lemma {:induction false} VerticalDragKeepsBounds(s: Layout, moves: seq<Pointer>, main: Rect)
    ensures var t := MovedAll(s, Vertical, moves, main);
      (t.topPaneHeight == s.topPaneHeight || HeightInBounds(t.topPaneHeight, main))
      && t.leftPaneWidth == s.leftPaneWidth && t.dragging == s.dragging
    decreases |moves|
  {
    if |moves| > 0 {
      var s' := Moved(s, Vertical, moves[0].clientX, moves[0].clientY, Some(main));
      VerticalDragKeepsBounds(s', moves[1..], main);
    }
  }

  /** Moves while not dragging change nothing, however many there are. */
  lemma {:induction false} IdleMovesChangeNothing(s: Layout, o: Orientation, moves: seq<Pointer>, main: Rect)
    requires !s.dragging
    ensures MovedAll(s, o, moves, main) == s
    decreases |moves|
  {
    if |moves| > 0 {
      IdleMovesChangeNothing(s, o, moves[1..], main);
    }
  }

  /** The persisted width is not the pane's width: after a move accepted at
      `clientX`, releasing at the same point persists the width plus the drag
      offset, and it is not clamped. */
  lemma PersistedWidthIncludesOffset(s: Layout, clientX: real, clientY: real, main: Rect, uid: Option<Uid>)
    requires s.dragging
    requires WidthInBounds(CandidateWidth(s, clientX, main), main)
    ensures var t := Moved(s, Horizontal, clientX, clientY, Some(main));
      var r := Released(t, Horizontal, clientX, Some(main), uid);
      r.persisted == Some(PaneWidthUpdate(uid, t.leftPaneWidth + s.dragOffsetX))
  {
  }

  /** A vertical re-init splits a container at least 300 high evenly, and both
      halves meet their minimum. */
  lemma VerticalReinitInBounds(s: Layout, main: Rect, screenWidth: real, asideWidth: real)
    requires main.height >= MIN_TOP_PANE_HEIGHT + MIN_BOTTOM_PANE_HEIGHT
    ensures var t := Reinitialized(s, Vertical, Some(main), screenWidth, asideWidth);
      HeightInBounds(t.topPaneHeight, main) && RenderedSize(t, Vertical) == main.height / 2.0
  {
  }

  /** The horizontal drag traced value by value: pointer down at x = 500 on a bar
      whose left edge is 480, container left 100 and width 900; a move to 650
      gives width 530, a move to 700 (candidate 580, over 550) is rejected, and
      the release at 700 persists 600. */
  lemma HorizontalDragScenario(s: Layout, uid: Option<Uid>)
    ensures var main := Rect(100.0, 0.0, 900.0, 600.0);
      var s1 := Pressed(s, Horizontal, 500.0, 10.0, Rect(480.0, 0.0, 10.0, 600.0));
      var s2 := Moved(s1, Horizontal, 650.0, 10.0, Some(main));
      var s3 := Moved(s2, Horizontal, 700.0, 10.0, Some(main));
      var r := Released(s3, Horizontal, 700.0, Some(main), uid);
      s1.dragOffsetX == 20.0 && s2.leftPaneWidth == 530.0 && s3.leftPaneWidth == 530.0
      && !r.layout.dragging && r.persisted == Some(PaneWidthUpdate(uid, 600.0))
  {
  }

  /** The layout state as the component holds it. */
  class PaneResizer {
    var dragging: bool
    var leftPaneWidth: real
    var topPaneHeight: real
    var dragOffsetX: real
    var dragOffsetY: real

    /** The current state as a `Layout` value. */
    function Snapshot(): Layout
      reads this
    {
      Layout(dragging, leftPaneWidth, topPaneHeight, dragOffsetX, dragOffsetY)
    }

    /** `useState` initial values and `useRef({x: 0, y: 0})`. */
    constructor (tab: Option<Tab>, screenWidth: real, asideWidth: real)
      ensures Snapshot() == Initial(tab, screenWidth, asideWidth)
    {
      dragging := false;
      if tab.Some? && TruthyNumber(tab.value.requestPaneWidth) {
        leftPaneWidth := tab.value.requestPaneWidth.value;
      } else {
        leftPaneWidth := (screenWidth - asideWidth) / SPLIT_DIVISOR;
      }
      if tab.Some? && TruthyNumber(tab.value.requestPaneHeight) {
        topPaneHeight := tab.value.requestPaneHeight.value;
      } else {
        topPaneHeight := MIN_TOP_PANE_HEIGHT;
      }
      dragOffsetX, dragOffsetY := 0.0, 0.0;
    }

    /** The re-initialising effect. */
    method Reinit(o: Orientation, main: Option<Rect>, screenWidth: real, asideWidth: real)
      modifies this
      ensures Snapshot() == Reinitialized(old(Snapshot()), o, main, screenWidth, asideWidth)
    {
      if main.Some? {
        if o == Vertical {
          topPaneHeight := main.value.height / 2.0;
          leftPaneWidth := main.value.width;
        } else {
          leftPaneWidth := (screenWidth - asideWidth) / SPLIT_DIVISOR;
        }
      }
    }

    /** `handleDragbarMouseDown`. */
    method MouseDown(o: Orientation, clientX: real, clientY: real, bar: Rect)
      modifies this
      ensures Snapshot() == Pressed(old(Snapshot()), o, clientX, clientY, bar)
    {
      dragging := true;
      if o == Vertical {
        dragOffsetY := clientY - bar.top;
      } else {
        dragOffsetX := clientX - bar.left;
      }
    }

    /** `handleMouseMove`. */
    method MouseMove(o: Orientation, clientX: real, clientY: real, main: Option<Rect>)
      modifies this
      ensures Snapshot() == Moved(old(Snapshot()), o, clientX, clientY, main)
    {
      if dragging && main.Some? {
        var rect := main.value;
        if o == Vertical {
          var newHeight := clientY - rect.top - dragOffsetY;
          if newHeight < MIN_TOP_PANE_HEIGHT || newHeight > rect.height - MIN_BOTTOM_PANE_HEIGHT {
            return;
          }
          topPaneHeight := newHeight;
        } else {
          var newWidth := clientX - rect.left - dragOffsetX;
          if newWidth < MIN_LEFT_PANE_WIDTH || newWidth > rect.width - MIN_RIGHT_PANE_WIDTH {
            return;
          }
          leftPaneWidth := newWidth;
        }
      }
    }

    /** `handleMouseUp`; `persisted` is the action dispatched to the store, if any. */
    method MouseUp(o: Orientation, clientX: real, main: Option<Rect>, activeTabUid: Option<Uid>)
      returns (persisted: Option<PaneWidthUpdate>)
      modifies this
      ensures Release(Snapshot(), persisted) == Released(old(Snapshot()), o, clientX, main, activeTabUid)
    {
      persisted := None;
      if dragging && main.Some? {
        dragging := false;
        if o != Vertical {
          persisted := Some(PaneWidthUpdate(activeTabUid, clientX - main.value.left));
        }
      }
    }

    /** The request pane's rendered size along the orientation's axis. */
    function RequestPaneSize(o: Orientation): (px: real)
      reads this
      ensures o == Horizontal ==>
        px >= MIN_LEFT_PANE_WIDTH && px >= leftPaneWidth && (px == leftPaneWidth || px == MIN_LEFT_PANE_WIDTH)
      ensures o == Vertical ==>
        px >= MIN_TOP_PANE_HEIGHT && px >= topPaneHeight && (px == topPaneHeight || px == MIN_TOP_PANE_HEIGHT)
    {
      RenderedSize(Snapshot(), o)
    }
  }

  /** The drag traced value by value, as the component's handlers run it. */
  method DragOnResizer(uid: Option<Uid>)
  {
    var tab := Tab(uid, Some("c1"), None, None, Some(420.0), None);
    var p := new PaneResizer(Some(tab), 1400.0, 200.0);
    assert p.leftPaneWidth == 420.0 && p.topPaneHeight == MIN_TOP_PANE_HEIGHT;
    var main := Rect(100.0, 0.0, 900.0, 600.0);
    p.MouseDown(Horizontal, 500.0, 10.0, Rect(480.0, 0.0, 10.0, 600.0));
    p.MouseMove(Horizontal, 650.0, 10.0, Some(main));
    assert p.leftPaneWidth == 530.0;
    p.MouseMove(Horizontal, 700.0, 10.0, Some(main));
    assert p.leftPaneWidth == 530.0;
    var action := p.MouseUp(Horizontal, 700.0, Some(main), uid);
    assert !p.dragging && action == Some(PaneWidthUpdate(uid, 600.0));
    p.MouseMove(Horizontal, 800.0, 10.0, Some(main));
    assert p.leftPaneWidth == 530.0;
  }
}
