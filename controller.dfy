/**
 * GuiTabInTitlebar as an object: its fields are updated in place by the
 * constructor, setTabAreaCornerWidget and handleWindowStateChangeEvent, and
 * read by handleWinEvent. Each method is tied to the Chrome function that
 * specifies it.
 */
module Controller {
  import opened WinTypes
  import opened HitTest
  import opened Chrome

  class GuiTabInTitlebar {
    var isCompositionEnabled: bool
    var windowFrameWidth: int
    var titlebarFrameWidth: int
    var tabbarHeight: int
    var tabAreaCornerWidget: Option<Widget>
    /** What tabArea->setCornerWidget was last given, per corner. */
    var tabAreaCorners: map<Corner, Option<Widget>>
    /** What mainWindow->setContentsMargins was last given; None if never called. */
    var contentsMargins: Option<Margins>

    ghost function State(): ChromeState
      reads this
    {
      ChromeState(isCompositionEnabled,
                  Geometry(windowFrameWidth, titlebarFrameWidth, tabbarHeight),
                  tabAreaCornerWidget, tabAreaCorners, contentsMargins)
    }

    ghost predicate Valid()
      reads this
    {
      ChromeInvariant(State())
    }

    /**
     * `compositionAvailable` is what dwmIsCompositionEnabled reports; the code
     * asks only when the feature is enabled. Frame widths and the tab-strip
     * height, left unset by the code when it is inert, are 0 here.
     */
    constructor (enable: bool, compositionAvailable: bool, style: StyleMetrics, windowState: WindowStates)
      ensures Valid()
      ensures State() == Initial(enable, compositionAvailable, style, windowState)
    {
      isCompositionEnabled := false;
      windowFrameWidth, titlebarFrameWidth, tabbarHeight := 0, 0, 0;
      tabAreaCornerWidget := None;
      tabAreaCorners := map[];
      contentsMargins := None;
      new;
      if enable && compositionAvailable {
        isCompositionEnabled := true;
        tabbarHeight := style.titleBarHeight;
        HandleWindowStateChangeEvent(windowState, style);
      }
    }

    method HandleWindowStateChangeEvent(state: WindowStates, style: StyleMetrics)
      modifies this
      ensures Valid()
      ensures State() == OnWindowStateChange(old(State()), state, style)
    {
      if (state & WindowMaximized) != 0 {
        windowFrameWidth := 0;
        titlebarFrameWidth := 0;
        contentsMargins := Some(Margins(0, 0, 0, 0));
      } else {
        windowFrameWidth := style.mdiSubWindowFrameWidth;
        titlebarFrameWidth := TitlebarFrameWidth(style.titleBarHeight);
        contentsMargins := Some(Margins(windowFrameWidth, titlebarFrameWidth, windowFrameWidth, windowFrameWidth));
      }
    }

    /** `sizeHintHeight` is w->sizeHint().height(). */
    method SetTabAreaCornerWidget(w: Option<Widget>, sizeHintHeight: int)
      requires isCompositionEnabled ==> w.Some?
      modifies this
      ensures old(Valid()) ==> Valid()
      ensures State() == OnSetTabAreaCornerWidget(old(State()), w, sizeHintHeight)
    {
      if !isCompositionEnabled {
        tabAreaCorners := tabAreaCorners[TopRightCorner := w];
        return;
      }
      tabAreaCornerWidget := w;
      tabAreaCorners := tabAreaCorners[TopLeftCorner := w];
      tabbarHeight := sizeHintHeight;
    }

    /**
     * handleWinEvent: the DWM default procedure is consulted first, then each
     * message the controller knows overrides whether the message counts as
     * handled (fCallDWP) and the value returned (lRet).
     */
    method HandleWinEvent(msg: Msg, e: Env) returns (reply: WinReply)
      requires HitTestSafe(State(), msg, e)
      ensures reply == Dispatch(State(), msg, e)
    {
      if !isCompositionEnabled {
        return PassThrough;
      }
      if msg.NcHitTest? {
        var h := HitTestNCA(Geometry(windowFrameWidth, titlebarFrameWidth, tabbarHeight),
                            tabAreaCornerWidget.Some?, msg.x, msg.y, e);
        return WinReply(h.Handled(), Some(h.Value()), None, None);
      }
      var fCallDWP := e.dwm.None?;
      var lRet := if e.dwm.Some? then e.dwm.value else 0;
      var minMax: Option<MinMaxInfo> := None;
      var extension: Option<Margins> := None;
      if msg.Activate? {
        extension := Some(FullFrameExtension);
        fCallDWP := true;
        lRet := 0;
      }
      if msg.NcCalcSize? && msg.wParam == TRUE {
        lRet := 0;
        fCallDWP := false;
      }
      if msg.GetMinMaxInfo? {
        minMax := Some(WorkAreaMaxInfo(e));
        lRet := 0;
        fCallDWP := false;
      }
      var result: Option<int> := if !fCallDWP then Some(lRet) else None;
      reply := WinReply(!fCallDWP, result, minMax, extension);
    }
  }

  /** A controller created with the feature disabled answers nothing and applies no margins. */
  method DisabledControllerIsInert(style: StyleMetrics, windowState: WindowStates, msg: Msg, e: Env)
    returns (reply: WinReply)
    ensures reply == PassThrough
  {
    var c := new GuiTabInTitlebar(false, true, style, windowState);
    assert c.contentsMargins.None?;
    reply := c.HandleWinEvent(msg, e);
  }

  /**
   * On any controller, in any state, a second identical state change leaves
   * every field as the first one left it.
   */
  method RepeatedStateChange(c: GuiTabInTitlebar, state: WindowStates, style: StyleMetrics)
    modifies c
    ensures c.Valid()
    ensures c.State() == OnWindowStateChange(old(c.State()), state, style)
  {
    c.HandleWindowStateChangeEvent(state, style);
    ghost var once := c.State();
    c.HandleWindowStateChangeEvent(state, style);
    StateChangeLastWins(old(c.State()), state, state, style, style);
    assert c.State() == once;
  }
}
