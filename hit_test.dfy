/**
 * The non-client hit test that replaces the window manager's own once the tab
 * strip is drawn in the title bar (GuiTabInTitlebar::hitTestNCA).
 *
 * The decision is taken in priority order: the DWM default procedure's answer,
 * then the caption band where the corner widget and the tabs sit, then a 3x3
 * grid over the window rectangle whose bands are the current frame widths.
 */
module HitTest {
  import opened WinTypes

  /** The frame widths the controller keeps: window_frame_width, titlebar_frame_width, tabbar_height. */
  datatype Geometry = Geometry(windowFrameWidth: int, titlebarFrameWidth: int, tabbarHeight: int)

  /**
   * What the message handler learns from the window system and the toolkit while
   * it answers one message.
   */
  datatype Env = Env(
    dwm: Option<int>,           // DwmDefWindowProc for this message: Some(lRet) when it handled it
    rcWindow: Rect,             // GetWindowRect of the main window
    rcFrameTop: int,            // top of AdjustWindowRectEx(WS_OVERLAPPEDWINDOW & ~WS_CAPTION); not positive in practice
    cornerWidth: int,           // tabAreaCornerWidget->width()
    tabAt: (int, int) -> int,   // tabBar->tabAt(point): a tab index, or NoTab
    availableWidth: int,        // QDesktopWidget::availableGeometry().width()
    availableHeight: int)       // QDesktopWidget::availableGeometry().height()

  /** What QTabBar::tabAt returns where there is no tab. */
  const NoTab := -1

  /** The answer of hitTestNCA: the DWM default procedure's own, or a region of the emulated frame. */
  datatype NcHit = FromDwm(lRet: int) | Region(code: HitCode)
  {
    /** The value written to *result. */
    function Value(): int {
      match this
      case FromDwm(lRet) => lRet
      case Region(code) => code.Value()
    }

    /** The boolean hitTestNCA returns. */
    predicate Handled() {
      FromDwm? || Value() != Nowhere.Value()
    }
  }

  /** The point relative to the origin of the simulated client area. */
  function LocalPoint(g: Geometry, rc: Rect, x: int, y: int): Point {
    Point(x - rc.left - g.windowFrameWidth, y - rc.top - g.titlebarFrameWidth)
  }

  /** The caption band holding the corner widget and the tab strip; its height bound is inclusive. */
  predicate InCaptionBand(g: Geometry, rc: Rect, x: int, y: int) {
    var p := LocalPoint(g, rc, x, y);
    p.x >= 0 && p.y >= 0 && p.y <= g.tabbarHeight
  }

  /**
   * In the caption band and over the corner widget or over a tab: plain client
   * area, so that the toolkit handles the click rather than the window manager.
   */
  predicate ClientExempt(g: Geometry, x: int, y: int, e: Env) {
    var p := LocalPoint(g, e.rcWindow, x, y);
    InCaptionBand(g, e.rcWindow, x, y) &&
    (p.x <= e.cornerWidth || e.tabAt(p.x - e.cornerWidth, p.y) != NoTab)
  }

  /** The top band is the simulated caption plus the tab strip. */
  predicate InTopRow(g: Geometry, rc: Rect, y: int) {
    y >= rc.top && y < rc.top + g.titlebarFrameWidth + g.tabbarHeight
  }

  predicate InBottomRow(g: Geometry, rc: Rect, y: int) {
    y < rc.bottom && y >= rc.bottom - g.windowFrameWidth
  }

  predicate InLeftColumn(g: Geometry, rc: Rect, x: int) {
    x >= rc.left && x < rc.left + g.windowFrameWidth
  }

  predicate InRightColumn(g: Geometry, rc: Rect, x: int) {
    x < rc.right && x >= rc.right - g.windowFrameWidth
  }

  /** The grid row: the top band is tested before the bottom one. */
  function GridRow(g: Geometry, rc: Rect, y: int): (row: nat)
    ensures row < 3
  {
    if InTopRow(g, rc, y) then 0
    else if InBottomRow(g, rc, y) then 2
    else 1
  }

  /** The grid column: the left band is tested before the right one. */
  function GridColumn(g: Geometry, rc: Rect, x: int): (col: nat)
    ensures col < 3
  {
    if InLeftColumn(g, rc, x) then 0
    else if InRightColumn(g, rc, x) then 2
    else 1
  }

  /**
   * The constant table hitTests[3][3]. The top-middle entry is a resize of the
   * top edge above the window manager's own top frame line, and caption below it.
   */
  function HitTests(y: int, rc: Rect, rcFrameTop: int): (t: seq<seq<HitCode>>)
    ensures |t| == 3 && forall i :: 0 <= i < 3 ==> |t[i]| == 3
  {
    [ [TopLeft, if y < rc.top - rcFrameTop then Top else Caption, TopRight],
      [Left, Nowhere, Right],
      [BottomLeft, Bottom, BottomRight] ]
  }

  /**
   * hitTestNCA. `hasCornerWidget` says whether tabAreaCornerWidget is set: the
   * code reads its width without a null check once the point is in the caption
   * band, so a caller must have set it by then.
   */
  function HitTestNCA(g: Geometry, hasCornerWidget: bool, x: int, y: int, e: Env): (r: NcHit)
    requires e.dwm.None? && InCaptionBand(g, e.rcWindow, x, y) ==> hasCornerWidget
    ensures e.dwm.Some? ==> r == FromDwm(e.dwm.value)
    ensures e.dwm.None? ==> r.Region?
    ensures r == Region(Client) <==> e.dwm.None? && ClientExempt(g, x, y, e)
  {
    if e.dwm.Some? then
      FromDwm(e.dwm.value)
    else if ClientExempt(g, x, y, e) then
      Region(Client)
    else
      var row := GridRow(g, e.rcWindow, y);
      var col := GridColumn(g, e.rcWindow, x);
      Region(HitTests(y, e.rcWindow, e.rcFrameTop)[row][col])
  }

  /**
   * Outside the DWM answer and the caption exemption, each code is given exactly
   * on its cell of the grid: corners where a top or bottom band meets a left or
   * right band (so corners win over edges), edges on the rest of the bands, the
   * top-middle cell split at the window manager's top frame line, and HTNOWHERE
   * only off every band.
   */
  lemma GridCells(g: Geometry, h: bool, x: int, y: int, e: Env)
    requires e.dwm.None? && !ClientExempt(g, x, y, e)
    requires InCaptionBand(g, e.rcWindow, x, y) ==> h
    ensures var rc := e.rcWindow;
            var top, bottom := InTopRow(g, rc, y), !InTopRow(g, rc, y) && InBottomRow(g, rc, y);
            var left, right := InLeftColumn(g, rc, x), !InLeftColumn(g, rc, x) && InRightColumn(g, rc, x);
            var r := HitTestNCA(g, h, x, y, e);
            (r == Region(TopLeft) <==> top && left) &&
            (r == Region(TopRight) <==> top && right) &&
            (r == Region(BottomLeft) <==> bottom && left) &&
            (r == Region(BottomRight) <==> bottom && right) &&
            (r == Region(Left) <==> !top && !bottom && left) &&
            (r == Region(Right) <==> !top && !bottom && right) &&
            (r == Region(Bottom) <==> bottom && !left && !right) &&
            (r == Region(Top) <==> top && !left && !right && y < rc.top - e.rcFrameTop) &&
            (r == Region(Caption) <==> top && !left && !right && y >= rc.top - e.rcFrameTop) &&
            (r == Region(Nowhere) <==> !top && !bottom && !left && !right)
  {
  }

  /**
   * HTNOWHERE comes only from the centre cell: the DWM did not answer, the point
   * is not exempt, and it lies on none of the four bands.
   */
  lemma OnlyCentreIsNowhere(g: Geometry, h: bool, x: int, y: int, e: Env)
    requires e.dwm.None? && InCaptionBand(g, e.rcWindow, x, y) ==> h
    ensures var rc := e.rcWindow;
            HitTestNCA(g, h, x, y, e) == Region(Nowhere) <==>
              e.dwm.None? && !ClientExempt(g, x, y, e) &&
              !InTopRow(g, rc, y) && !InBottomRow(g, rc, y) &&
              !InLeftColumn(g, rc, x) && !InRightColumn(g, rc, x)
  {
  }

  /**
   * hitTestNCA reports "handled" for every answer except the centre cell's
   * HTNOWHERE, including a DWM answer whose value happens to be zero.
   */
  lemma HandledUnlessNowhere(g: Geometry, h: bool, x: int, y: int, e: Env)
    requires e.dwm.None? && InCaptionBand(g, e.rcWindow, x, y) ==> h
    ensures var r := HitTestNCA(g, h, x, y, e);
            r.Handled() <==> r != Region(Nowhere)
  {
  }

  /**
   * With the frame widths of a maximized window (both zero) there are no side,
   * bottom or corner resize regions: only the top strip can still be top edge
   * or caption.
   */
  lemma MaximizedHasOnlyTopRegions(g: Geometry, h: bool, x: int, y: int, e: Env)
    requires g.windowFrameWidth == 0 && g.titlebarFrameWidth == 0
    requires e.dwm.None? && InCaptionBand(g, e.rcWindow, x, y) ==> h
    ensures var r := HitTestNCA(g, h, x, y, e);
            r.Region? ==> r.code in {Client, Caption, Top, Nowhere}
  {
  }

  /**
   * A window at (100,100)-(900,700) with frame widths 8 and 24, a 30 pixel tab
   * strip, a 40 pixel corner widget and a top frame line 8 pixels below the
   * window's top edge.
   */
  function ExampleGeometry(): Geometry { Geometry(8, 24, 30) }

  function ExampleEnv(tab: int): Env {
    Env(None, Rect(100, 100, 900, 700), -8, 40, (px: int, py: int) => tab, 0, 0)
  }

  /**
   * Worked points: a top-left corner, the caption, the centre, and the last
   * pixel row of the caption band over tab 2, which the inclusive bound keeps
   * as client area although it lies one row below the top band.
   */
  lemma ExampleHits()
    ensures HitTestNCA(ExampleGeometry(), true, 104, 105, ExampleEnv(NoTab)) == Region(TopLeft)
    ensures HitTestNCA(ExampleGeometry(), true, 500, 110, ExampleEnv(NoTab)) == Region(Caption)
    ensures HitTestNCA(ExampleGeometry(), true, 500, 105, ExampleEnv(NoTab)) == Region(Top)
    ensures HitTestNCA(ExampleGeometry(), true, 500, 400, ExampleEnv(NoTab)) == Region(Nowhere)
    ensures HitTestNCA(ExampleGeometry(), true, 500, 154, ExampleEnv(2)) == Region(Client)
    ensures !InTopRow(ExampleGeometry(), ExampleEnv(2).rcWindow, 154)
  {
  }
}
