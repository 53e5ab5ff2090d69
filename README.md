# Tabs in the title bar: a verified model of the window-chrome controller

`GuiTabInTitlebar` (qutty, `windows/GuiTabInTitlebar.cpp`) puts the main
window's tab strip into the title bar on Windows with DWM composition. It
extends the DWM frame over the whole client area and then takes over the
window manager's non-client decisions itself:

- the **composition gate**: the constructor turns the feature on only when it
  is enabled and DWM composition is available;
- the **geometry**: a maximized and a normal profile of frame widths, and the
  content margins that go with them;
- the **hit test** (`hitTestNCA`): DWM's own answer first, then the caption
  band over the corner widget and the tabs, then a 3x3 grid of resize edges,
  corners, caption and centre;
- the **dispatcher** (`handleWinEvent`): WM_NCHITTEST, WM_ACTIVATE (frame
  extension), WM_NCCALCSIZE and WM_GETMINMAXINFO (maximum size set to the
  work area less one pixel of height, maximum position set to the origin).

The Dafny modules:

- `WinTypes` (`win_types.dfy`): rectangles, points, margins, the HT* region
  codes with their winuser.h values, Qt window-state flags.
- `HitTest` (`hit_test.dfy`): `HitTestNCA` as a pure function of the frame
  widths, the point and what the window system reports (`Env`), with lemmas on
  which grid cell gives which code.
- `Chrome` (`chrome.dfy`): the controller's state as a value (`ChromeState`),
  the functions that specify each operation, and `Dispatch`, the
  message-by-message answer of `handleWinEvent`.
- `Controller` (`controller.dfy`): the class `GuiTabInTitlebar`, whose fields
  the constructor, `SetTabAreaCornerWidget` and `HandleWindowStateChangeEvent`
  update in place, and whose `HandleWinEvent` computes its answer step by step
  through `fCallDWP` and `lRet`. Each method is proved equal to its `Chrome`
  function.
- `Runs` (`runs.dfy`): sequences of state changes, corner-widget assignments
  and messages, with inductive lemmas about everything a controller does over
  its lifetime.

Collaborators are inputs. DwmDefWindowProc's answer, the window rectangle,
the top of the caption-less frame rectangle, the corner widget's width,
`QTabBar::tabAt` and the desktop's available geometry are fields of `Env`.
The style metrics are a `StyleMetrics` argument. DWM composition availability
is a constructor argument. The effects on collaborators are recorded in the
state: the content margins last given to the main window, and the widgets
given to the tab area's corners. The frame extension and the MINMAXINFO
fields are recorded in the message reply.

Three details of the code that the model keeps:

- `handleWindowStateChangeEvent` does not test `isCompositionEnabled`
  (windows/GuiTabInTitlebar.cpp:193-205). So an inert controller that is told
  of a state change sets content margins (`Chrome.InertStateChangeAppliesMargins`).
  An inert controller applies no margins only over sequences without
  state-change notifications (`Runs.DisabledControllerStaysInert`). Whether the
  caller guards that call is not part of this model.
- `hitTestNCA` writes `*result` even when it returns false for HTNOWHERE. So
  for WM_NCHITTEST the result is written whether or not the message counts as
  handled (`Chrome.HitTestAlwaysWritesResult`).
- The caption band's height test is inclusive. It therefore reaches one pixel
  row below the top grid band (`HitTest.ExampleHits`).

## Model

| member | source | states |
|---|---|---|
| `HitTest.HitTestNCA` | windows/GuiTabInTitlebar.cpp:138-191 | A DWM answer is returned unchanged before anything else is looked at. Without one, the answer is always a region code. It is HTCLIENT exactly when the point is in the caption band (x ≥ 0, 0 ≤ y ≤ tab-bar height after the frame offset) and over the corner widget or a tab. The grid never yields HTCLIENT. The corner widget must be set whenever the band test is reached. |
| `HitTest.GridCells` | windows/GuiTabInTitlebar.cpp:167-189 | Outside the DWM answer and the caption exemption, each code is given exactly on its cell, stated in coordinates. A corner goes where the top or bottom band meets the left or right band, so corners win over edges. Top is tested before bottom and left before right. The top band includes the tab-bar height. The top-middle cell is HTTOP iff y < rcWindow.top − rcFrame.top and HTCAPTION otherwise. HTNOWHERE occurs iff the point is on no band. |
| `HitTest.OnlyCentreIsNowhere` | windows/GuiTabInTitlebar.cpp:182-190 | HTNOWHERE is returned iff DWM did not answer, the point is not exempt, and it lies on none of the four bands. |
| `HitTest.HandledUnlessNowhere` | windows/GuiTabInTitlebar.cpp:148-190 | hitTestNCA returns true iff its answer is not the centre cell's HTNOWHERE. A DWM answer counts as handled whatever its value. |
| `HitTest.MaximizedHasOnlyTopRegions` | windows/GuiTabInTitlebar.cpp:167-189 | With both frame widths zero (the maximized profile), no side, bottom or corner resize region is returned outside a DWM answer. |
| `HitTest.ExampleHits` | windows/GuiTabInTitlebar.cpp:154-189 | Uses a window at (100,100)-(900,700) with frame widths 8 and 24. (104,105) is top-left. (500,110) is caption. (500,105) is top edge. (500,400) is nowhere. The band's last row over tab 2 is client area, although it lies below the top grid band. |
| `Chrome.TitlebarFrameWidth` | windows/GuiTabInTitlebar.cpp:201 | The simulated caption is 3·h/4 with C++ truncating division. It is bounded by 4t ≤ 3h < 4t + 4 when 3h ≥ 0, and by 4t − 4 < 3h ≤ 4t otherwise. |
| `Chrome.OnWindowStateChange` | windows/GuiTabInTitlebar.cpp:193-205 | Maximized: both frame widths become 0 and the margins (0,0,0,0). Otherwise: the window frame width is the MDI frame metric, the caption width is TitlebarFrameWidth(title-bar height), and the margins are (w,t,w,w). The gate, the corner widget, the tab-area corners and the tab-bar height are unchanged. |
| `Chrome.StateChangeSeesOnlyMaximizedBit` | windows/GuiTabInTitlebar.cpp:195 | Two window states with the same maximized bit give the same new state. |
| `Chrome.StateChangeLastWins` | windows/GuiTabInTitlebar.cpp:193-205 | A state change overrides any earlier one. Applying the same one twice equals applying it once. |
| `Chrome.StateChangeEstablishesInvariant` | windows/GuiTabInTitlebar.cpp:193-205 | After any state change, the margins equal (w,t,w,w) for the current frame widths. |
| `Chrome.InertStateChangeAppliesMargins` | windows/GuiTabInTitlebar.cpp:193-205 | The state change is not gated: an inert controller with no margins gets margins and stays inert. |
| `Chrome.OnSetTabAreaCornerWidget` | windows/GuiTabInTitlebar.cpp:126-136 | Inert: the widget is given to the tab area's top-right corner and nothing else changes. Active: the widget must be non-null. It becomes the corner widget at the top-left corner, and its preferred height becomes the tab-bar height. In both cases the gate and the margins are unchanged. |
| `Chrome.CornerWidgetKeepsInvariant` | windows/GuiTabInTitlebar.cpp:126-136 | Setting the corner widget keeps the margins in agreement with the frame widths. |
| `Chrome.Initial` | windows/GuiTabInTitlebar.cpp:27-57 | The controller is active iff it is enabled and composition is available. Either way there is no corner widget and no tab-area corner has been set. An inert one has no margins. An active one starts with the tab-bar height equal to the title-bar metric, and with the frame widths and margins of the current window state's profile. Either way the invariant holds. |
| `Chrome.Dispatch` | windows/GuiTabInTitlebar.cpp:59-124 | Inert: every message passes through untouched. For every message except WM_NCHITTEST, *result is written exactly when the message is reported handled. The frame is extended exactly on WM_ACTIVATE while active. MINMAXINFO is written exactly on WM_GETMINMAXINFO while active. |
| `Chrome.HitTestAlwaysWritesResult` | windows/GuiTabInTitlebar.cpp:72-75 | WM_NCHITTEST always writes *result. With a DWM answer it is handled with DWM's value. Otherwise it is handled iff the value written is not HTNOWHERE. |
| `Chrome.ActivateNeverHandled` | windows/GuiTabInTitlebar.cpp:80-99 | WM_ACTIVATE is never reported handled and writes no result, even when DWM handled it. It requests a frame extension of −1 on all sides iff the controller is active. |
| `Chrome.NcCalcSizeSuppressed` | windows/GuiTabInTitlebar.cpp:101-107 | WM_NCCALCSIZE with wParam TRUE is handled with result 0. With any other wParam it is handled iff DWM handled it, with DWM's result. |
| `Chrome.MinMaxInfoSet` | windows/GuiTabInTitlebar.cpp:109-118 | WM_GETMINMAXINFO is handled with result 0. ptMaxSize is (available width, available height − 1) and ptMaxPosition is (0,0). |
| `Chrome.MinMaxExample` | windows/GuiTabInTitlebar.cpp:109-118 | A 1920×1040 work area gives a maximum size of 1920×1039 at (0,0). |
| `Chrome.OtherFollowsDwm` | windows/GuiTabInTitlebar.cpp:120-123 | Any other message is handled iff DwmDefWindowProc handled it (line 77), with its result. It neither extends the frame nor writes MINMAXINFO. |
| `Controller.GuiTabInTitlebar.constructor` | windows/GuiTabInTitlebar.cpp:27-57 | The fields equal `Chrome.Initial` of the arguments, and the margins invariant holds. |
| `Controller.GuiTabInTitlebar.HandleWindowStateChangeEvent` | windows/GuiTabInTitlebar.cpp:193-205 | The fields are updated in place to `Chrome.OnWindowStateChange` of the old state, and the invariant holds afterwards. |
| `Controller.GuiTabInTitlebar.SetTabAreaCornerWidget` | windows/GuiTabInTitlebar.cpp:126-136 | The fields are updated in place to `Chrome.OnSetTabAreaCornerWidget` of the old state. The corner widget must be non-null when active. The invariant is kept. |
| `Controller.GuiTabInTitlebar.HandleWinEvent` | windows/GuiTabInTitlebar.cpp:59-124 | The step-by-step computation through fCallDWP and lRet gives exactly `Chrome.Dispatch` of the current state. It changes no field. |
| `Controller.DisabledControllerIsInert` | windows/GuiTabInTitlebar.cpp:69-70 | A controller built with the feature disabled lets any message through. |
| `Controller.RepeatedStateChange` | windows/GuiTabInTitlebar.cpp:193-205 | On any controller object, in any state, two identical state changes leave every field as one does, and the invariant holds afterwards. |
| `Runs.Apply` | windows/GuiTabInTitlebar.cpp:126-205 | No event changes the composition gate, and every event keeps the margins invariant. Only a state change touches the margins and the frame widths. A message leaves the whole state as it was. |
| `Runs.Replies` | windows/GuiTabInTitlebar.cpp:59-124 | There is exactly one answer per event, and there is a reply exactly for the message events. |
| `Runs.ReplyAt` | windows/GuiTabInTitlebar.cpp:59-124 | Reply i of a run is the answer to event i in the state left behind by the events before it, and that event is safe in that state. |
| `Runs.InertRunIsSafe` | windows/GuiTabInTitlebar.cpp:69-70 | An inert controller never reaches the corner-widget dereference, whatever the events. |
| `Runs.RunKeepsGate` | windows/GuiTabInTitlebar.cpp:32-37 | After any sequence of events the composition flag is what the constructor set. |
| `Runs.RunKeepsInvariant` | windows/GuiTabInTitlebar.cpp:193-205 | After any sequence of events the margins still agree with the frame widths. |
| `Runs.InertRunPassesThrough` | windows/GuiTabInTitlebar.cpp:69-70 | An inert controller lets every message of any sequence through: nothing is handled, no result is written, no MINMAXINFO is written and no frame extension is requested. |
| `Runs.MarginsOnlyFromStateChange` | windows/GuiTabInTitlebar.cpp:198-203 | A sequence without state-change notifications leaves the margins and both frame widths unchanged. |
| `Runs.LastStateChangeDecides` | windows/GuiTabInTitlebar.cpp:193-205 | After the last state change in a sequence, the frame widths and margins are those of that state's profile, whatever came before it. |
| `Runs.DisabledControllerStaysInert` | windows/GuiTabInTitlebar.cpp:34-35 | A controller built disabled or without composition stays inert and lets every message through. It applies no margins unless it is told of a state change. |

## Left out

- Win32 calls: GetWindowRect and AdjustWindowRectEx become the `rcWindow` and `rcFrameTop` fields of `Env`. The SetWindowPos(SWP_FRAMECHANGED) call in the constructor changes no state of the controller and is not modelled.
- GET_X_LPARAM/GET_Y_LPARAM: the point's coordinates are given as integers.
- DWM calls: dwmIsCompositionEnabled is a constructor argument, and whether it is asked at all when the feature is disabled is not observable in the model. dwmDefWindowProc is the single `Env.dwm` answer for the message; hitTestNCA and handleWinEvent would each call it, but only one of them does so for any one message. The HRESULT of dwmExtendFrameIntoClientArea is ignored by the code and is not modelled; the request itself appears as `frameExtension` in the reply.
- Qt calls: pixelMetric values come in as `StyleMetrics`. `sizeHint().height()`, `width()`, `tabAt` and `availableGeometry()` come in as arguments or `Env` fields. setAttribute(WA_TranslucentBackground) is not recorded. The MINMAXINFO fields the code does not write are not modelled.
- Null pointers: a null corner widget, dereferenced in hitTestNCA and setTabAreaCornerWidget, is excluded by preconditions (`HitTestSafe`, `EventSafe`), not given a behaviour.
- Uninitialised members: the code leaves window_frame_width, titlebar_frame_width and tabbar_height unset while inert. The model sets them to 0; no operation reads them while inert.
- Chrome.TitlebarFrameWidth: does not model 32-bit overflow of 3·h, since style metrics are small positive pixel counts.
- HitTest.HitTestNCA: does not model 32-bit overflow in the coordinate sums (rcWindow.top + titlebar_frame_width + tabbar_height and the like), since screen coordinates are far from the int range.
- The value written to `*result` is an LRESULT narrowed to `long` (windows/GuiTabInTitlebar.cpp:121, :150). The model keeps the full value.
- Painting, window creation and destruction, and threading: the code handles one message at a time on the UI thread and has none of these.
