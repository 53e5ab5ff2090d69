/** Win32 and Qt values that the tabs-in-titlebar chrome reads and writes. */
module WinTypes {

  datatype Option<+T> = None | Some(value: T)

  /** A Win32 RECT in screen pixels: left and top inclusive, right and bottom exclusive. */
  datatype Rect = Rect(left: int, top: int, right: int, bottom: int)

  /** A Win32 POINT. */
  datatype Point = Point(x: int, y: int)

  /** Four edge widths: the main window's Qt content margins, or a DWM MARGINS record. */
  datatype Margins = Margins(left: int, top: int, right: int, bottom: int)

  /** The region codes a WM_NCHITTEST answer can carry in this window. */
  datatype HitCode =
    | Nowhere | Client | Caption
    | Left | Right | Top | TopLeft | TopRight
    | Bottom | BottomLeft | BottomRight
  {
    /** The HT* value winuser.h gives the code. */
    function Value(): int {
      match this
      case Nowhere => 0
      case Client => 1
      case Caption => 2
      case Left => 10
      case Right => 11
      case Top => 12
      case TopLeft => 13
      case TopRight => 14
      case Bottom => 15
      case BottomLeft => 16
      case BottomRight => 17
    }
  }

  /** Qt::WindowStates, a set of flags. */
  type WindowStates = bv32

  /** Qt::WindowMaximized. */
  const WindowMaximized: WindowStates := 0x2

  predicate IsMaximized(state: WindowStates) {
    (state & WindowMaximized) != 0
  }
}
