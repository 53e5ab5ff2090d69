/**
 * The chrome state of GuiTabInTitlebar and the functions that say how each of
 * its operations changes it or answers a window message.
 */
module Chrome {
  import opened WinTypes
  import opened HitTest

  /** The QStyle metrics read from the main window's style at the time of a call. */
  datatype StyleMetrics = StyleMetrics(titleBarHeight: int, mdiSubWindowFrameWidth: int)

  /** A widget handed to setTabAreaCornerWidget; a non-owning reference. */
  datatype Widget = Widget(id: nat)

  /** The tab area's corners that setCornerWidget is called with. */
  datatype Corner = TopLeftCorner | TopRightCorner

  /**
   * The controller's state, with the two effects it has on its collaborators:
   * the corner widgets given to the tab area, and the content margins it last
   * gave the main window (None when it never set any).
   */
  datatype ChromeState = ChromeState(
    compositionEnabled: bool,
    geometry: Geometry,
    cornerWidget: Option<Widget>,
    tabAreaCorners: map<Corner, Option<Widget>>,
    margins: Option<Margins>)

  /**
   * The simulated caption is three quarters of the style's title-bar height, an
   * empirical ratio that leaves a draggable sliver above the tabs.
   */
  const CaptionRatioNumerator := 3
  const CaptionRatioDenominator := 4

  /** 3*h/4 in C++ int arithmetic: the division truncates toward zero. */
  function TitlebarFrameWidth(titleBarHeight: int): (t: int)
    ensures var n := CaptionRatioNumerator * titleBarHeight;
            var d := CaptionRatioDenominator;
            (n >= 0 ==> d * t <= n < d * t + d) &&
            (n < 0 ==> d * t - d < n <= d * t)
  {
    var n := CaptionRatioNumerator * titleBarHeight;
    if n >= 0 then n / CaptionRatioDenominator else -((-n) / CaptionRatioDenominator)
  }

  /** The frame widths of one window state: the maximized profile or the normal one. */
  datatype Profile = Profile(windowFrameWidth: int, titlebarFrameWidth: int)

  function ProfileFor(state: WindowStates, style: StyleMetrics): Profile {
    if IsMaximized(state) then Profile(0, 0)
    else Profile(style.mdiSubWindowFrameWidth, TitlebarFrameWidth(style.titleBarHeight))
  }

  /** The content margins that go with frame widths: the window frame on three sides, the caption on top. */
  function FrameMargins(windowFrameWidth: int, titlebarFrameWidth: int): Margins {
    Margins(windowFrameWidth, titlebarFrameWidth, windowFrameWidth, windowFrameWidth)
  }

  /**
   * The margins on the main window always agree with the current frame widths,
   * and an active controller has applied them.
   */
  predicate ChromeInvariant(s: ChromeState) {
    (s.compositionEnabled ==> s.margins.Some?) &&
    (s.margins.Some? ==>
      s.margins.value == FrameMargins(s.geometry.windowFrameWidth, s.geometry.titlebarFrameWidth))
  }

  /** handleWindowStateChangeEvent. It does not consult compositionEnabled. */
  function OnWindowStateChange(s: ChromeState, state: WindowStates, style: StyleMetrics): (r: ChromeState)
    ensures IsMaximized(state) ==>
              r.geometry.windowFrameWidth == 0 && r.geometry.titlebarFrameWidth == 0 &&
              r.margins == Some(Margins(0, 0, 0, 0))
    ensures !IsMaximized(state) ==>
              var w, t := style.mdiSubWindowFrameWidth, TitlebarFrameWidth(style.titleBarHeight);
              r.geometry.windowFrameWidth == w && r.geometry.titlebarFrameWidth == t &&
              r.margins == Some(Margins(w, t, w, w))
    ensures r.compositionEnabled == s.compositionEnabled && r.cornerWidget == s.cornerWidget
    ensures r.tabAreaCorners == s.tabAreaCorners
    ensures r.geometry.tabbarHeight == s.geometry.tabbarHeight
  {
    var p := ProfileFor(state, style);
    s.(geometry := s.geometry.(windowFrameWidth := p.windowFrameWidth,
                               titlebarFrameWidth := p.titlebarFrameWidth),
       margins := Some(FrameMargins(p.windowFrameWidth, p.titlebarFrameWidth)))
  }

  /** The new state depends on the window state only through its maximized bit. */
  lemma StateChangeSeesOnlyMaximizedBit(s: ChromeState, a: WindowStates, b: WindowStates, style: StyleMetrics)
    requires IsMaximized(a) == IsMaximized(b)
    ensures OnWindowStateChange(s, a, style) == OnWindowStateChange(s, b, style)
  {
  }

  /** A later state change overrides an earlier one; in particular the change is idempotent. */
  lemma StateChangeLastWins(s: ChromeState, a: WindowStates, b: WindowStates, m1: StyleMetrics, m2: StyleMetrics)
    ensures OnWindowStateChange(OnWindowStateChange(s, a, m1), b, m2) == OnWindowStateChange(s, b, m2)
    ensures OnWindowStateChange(OnWindowStateChange(s, b, m2), b, m2) == OnWindowStateChange(s, b, m2)
  {
  }

  /** After any state change the margins match the frame widths, whatever came before. */
  lemma StateChangeEstablishesInvariant(s: ChromeState, state: WindowStates, style: StyleMetrics)
    ensures ChromeInvariant(OnWindowStateChange(s, state, style))
  {
  }

  /**
   * Because the code applies margins without looking at the composition flag, an
   * inert controller that is told of a state change sets margins too.
   */
  lemma InertStateChangeAppliesMargins(s: ChromeState, state: WindowStates, style: StyleMetrics)
    requires !s.compositionEnabled && s.margins.None?
    ensures var r := OnWindowStateChange(s, state, style);
            !r.compositionEnabled && r.margins.Some?
  {
  }

  /**
   * setTabAreaCornerWidget. While inert the widget goes to the tab area's
   * top-right corner and nothing else changes; otherwise it becomes the corner
   * widget at the top left and its preferred height becomes the tab-strip
   * height. The code then reads the widget's size hint with no null check.
   */
  function OnSetTabAreaCornerWidget(s: ChromeState, w: Option<Widget>, sizeHintHeight: int): (r: ChromeState)
    requires s.compositionEnabled ==> w.Some?
    ensures !s.compositionEnabled ==> r == s.(tabAreaCorners := s.tabAreaCorners[TopRightCorner := w])
    ensures s.compositionEnabled ==>
              r.cornerWidget == w && r.tabAreaCorners == s.tabAreaCorners[TopLeftCorner := w] &&
              r.geometry == s.geometry.(tabbarHeight := sizeHintHeight)
    ensures r.compositionEnabled == s.compositionEnabled && r.margins == s.margins
  {
    if !s.compositionEnabled then
      s.(tabAreaCorners := s.tabAreaCorners[TopRightCorner := w])
    else
      s.(cornerWidget := w,
         tabAreaCorners := s.tabAreaCorners[TopLeftCorner := w],
         geometry := s.geometry.(tabbarHeight := sizeHintHeight))
  }

  /** Setting the corner widget leaves the frame widths and margins alone, so it keeps the invariant. */
  lemma CornerWidgetKeepsInvariant(s: ChromeState, w: Option<Widget>, sizeHintHeight: int)
    requires s.compositionEnabled ==> w.Some?
    ensures ChromeInvariant(s) ==> ChromeInvariant(OnSetTabAreaCornerWidget(s, w, sizeHintHeight))
  {
  }

  /** The state of a controller that does nothing: frame widths are never read in it. */
  const Inert := ChromeState(false, Geometry(0, 0, 0), None, map[], None)

  /**
   * The constructor. The feature is on only if it is enabled and DWM composition
   * is available; then the tab-strip height starts as the style's title-bar
   * height and the geometry of the window's current state is applied.
   */
  function Initial(enable: bool, compositionAvailable: bool, style: StyleMetrics, windowState: WindowStates): (r: ChromeState)
    ensures r.compositionEnabled <==> enable && compositionAvailable
    ensures r.tabAreaCorners == map[] && r.cornerWidget.None?
    ensures !r.compositionEnabled ==> r.margins.None?
    ensures r.compositionEnabled ==>
              var p := ProfileFor(windowState, style);
              r.geometry.tabbarHeight == style.titleBarHeight &&
              r.geometry.windowFrameWidth == p.windowFrameWidth &&
              r.geometry.titlebarFrameWidth == p.titlebarFrameWidth &&
              r.margins == Some(FrameMargins(p.windowFrameWidth, p.titlebarFrameWidth))
    ensures ChromeInvariant(r)
  {
    if !enable || !compositionAvailable then
      Inert
    else
      var active := Inert.(compositionEnabled := true, geometry := Inert.geometry.(tabbarHeight := style.titleBarHeight));
      OnWindowStateChange(active, windowState, style)
  }

  /** The window messages the controller tells apart. */
  datatype Msg =
    | NcHitTest(x: int, y: int)
    | Activate
    | NcCalcSize(wParam: int)
    | GetMinMaxInfo
    | Other

  /** The Win32 TRUE that WM_NCCALCSIZE's wParam is compared with. */
  const TRUE := 1

  /** The two MINMAXINFO fields the controller writes. */
  datatype MinMaxInfo = MinMaxInfo(maxSize: Point, maxPosition: Point)

  /**
   * The answer to one message: the return value of handleWinEvent, what it
   * wrote to *result (None when untouched), what it wrote to the MINMAXINFO
   * record, and the margins it asked DWM to extend the frame by.
   */
  datatype WinReply = WinReply(
    handled: bool,
    result: Option<int>,
    minMaxInfo: Option<MinMaxInfo>,
    frameExtension: Option<Margins>)

  /** The message goes on to Qt's default handling and nothing is written. */
  const PassThrough := WinReply(false, None, None, None)

  /** DWM MARGINS of -1 on every side: the frame covers the whole client area. */
  const FullFrameExtension := Margins(-1, -1, -1, -1)

  /**
   * Subtracted from the work-area height for the maximum size: a maximized
   * window as tall as the work area keeps an auto-hidden taskbar from showing.
   */
  const TaskbarRevealGap := 1

  function WorkAreaMaxInfo(e: Env): MinMaxInfo {
    MinMaxInfo(Point(e.availableWidth, e.availableHeight - TaskbarRevealGap), Point(0, 0))
  }

  /** The reply when only the DWM default procedure's answer decides. */
  function DwmReply(dwm: Option<int>): WinReply {
    if dwm.Some? then WinReply(true, Some(dwm.value), None, None) else PassThrough
  }

  /** The hit test reads the corner widget only where it is set. */
  predicate HitTestSafe(s: ChromeState, msg: Msg, e: Env) {
    (s.compositionEnabled && msg.NcHitTest? && e.dwm.None? &&
     InCaptionBand(s.geometry, e.rcWindow, msg.x, msg.y)) ==> s.cornerWidget.Some?
  }

  /** handleWinEvent, message by message. */
  function Dispatch(s: ChromeState, msg: Msg, e: Env): (r: WinReply)
    requires HitTestSafe(s, msg, e)
    ensures !s.compositionEnabled ==> r == PassThrough
    ensures !msg.NcHitTest? ==> (r.result.Some? <==> r.handled)
    ensures r.frameExtension.Some? <==> s.compositionEnabled && msg.Activate?
    ensures r.minMaxInfo.Some? <==> s.compositionEnabled && msg.GetMinMaxInfo?
  {
    if !s.compositionEnabled then
      PassThrough
    else
      match msg
      case NcHitTest(x, y) =>
        var h := HitTestNCA(s.geometry, s.cornerWidget.Some?, x, y, e);
        WinReply(h.Handled(), Some(h.Value()), None, None)
      case Activate =>
        WinReply(false, None, None, Some(FullFrameExtension))
      case NcCalcSize(wParam) =>
        if wParam == TRUE then WinReply(true, Some(0), None, None) else DwmReply(e.dwm)
      case GetMinMaxInfo =>
        WinReply(true, Some(0), Some(WorkAreaMaxInfo(e)), None)
      case Other =>
        DwmReply(e.dwm)
  }

  /**
   * A hit-test message always writes *result, even when it reports "not
   * handled" (HTNOWHERE), and the DWM answer wins when there is one.
   */
  lemma HitTestAlwaysWritesResult(s: ChromeState, x: int, y: int, e: Env)
    requires s.compositionEnabled && HitTestSafe(s, NcHitTest(x, y), e)
    ensures var r := Dispatch(s, NcHitTest(x, y), e);
            r.result.Some? &&
            (e.dwm.Some? ==> r.handled && r.result == e.dwm) &&
            (e.dwm.None? ==> (r.handled <==> r.result != Some(Nowhere.Value())))
  {
  }

  /** WM_ACTIVATE extends the frame but is never reported handled, even when DWM handled it. */
  lemma ActivateNeverHandled(s: ChromeState, e: Env)
    ensures var r := Dispatch(s, Activate, e);
            !r.handled && r.result.None? &&
            r.frameExtension == (if s.compositionEnabled then Some(FullFrameExtension) else None)
  {
  }

  /**
   * WM_NCCALCSIZE with wParam TRUE is answered 0 so that no standard frame is
   * drawn; with any other wParam the DWM answer decides.
   */
  lemma NcCalcSizeSuppressed(s: ChromeState, wParam: int, e: Env)
    requires s.compositionEnabled
    ensures var r := Dispatch(s, NcCalcSize(wParam), e);
            (wParam == TRUE ==> r.handled && r.result == Some(0)) &&
            (wParam != TRUE ==> (r.handled <==> e.dwm.Some?) && r.result == e.dwm)
  {
  }

  /**
   * WM_GETMINMAXINFO is answered 0; the maximum size is the work area less one
   * pixel of height and the maximum position is the origin.
   */
  lemma MinMaxInfoSet(s: ChromeState, e: Env)
    requires s.compositionEnabled
    ensures var r := Dispatch(s, GetMinMaxInfo, e);
            r.handled && r.result == Some(0) &&
            r.minMaxInfo == Some(MinMaxInfo(Point(e.availableWidth, e.availableHeight - 1), Point(0, 0)))
  {
  }

  /** A 1920x1040 work area gives a maximum size of 1920x1039 at (0,0). */
  lemma MinMaxExample(s: ChromeState)
    requires s.compositionEnabled
    ensures Dispatch(s, GetMinMaxInfo, ExampleEnv(NoTab).(availableWidth := 1920, availableHeight := 1040)).minMaxInfo
            == Some(MinMaxInfo(Point(1920, 1039), Point(0, 0)))
  {
  }

  /** Any other message is handled exactly when DWM handled it, with DWM's result. */
  lemma OtherFollowsDwm(s: ChromeState, e: Env)
    requires s.compositionEnabled
    ensures var r := Dispatch(s, Other, e);
            (r.handled <==> e.dwm.Some?) && r.result == e.dwm &&
            r.minMaxInfo.None? && r.frameExtension.None?
  {
  }
}
