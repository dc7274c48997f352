/** The lightweight position records the builder produces for every item of
    the timetable (VirtualMeasuredItem.kt): a rectangle in pre-scroll pixels,
    the item's index in the flat item list, and an opaque content reference. */
module Geometry {
  import opened Kotlin

  /** The composable content an item renders; opaque to the layout engine. */
  datatype Content =
    | Slot(id: nat)               // a caller-supplied header or period lambda
    | LabelText(epochSec: int)    // the time-label renderer applied to one epoch second
    | HeaderBackgroundFill        // the spacer filled with the column-header colour
    | TimeColumnBackgroundFill    // the spacer filled with the time-column colour

  /** One item of the virtual layout. The two background records do not
      store the side they leave open: `Width()`/`Height()` report
      `Int.MAX_VALUE` for it. */
  datatype VirtualMeasuredItem =
    | Period(columnNumber: int, startAtSec: int, endAtSec: int,
             positionInItemProvider: int, width: int, height: int, x: int, y: int, content: Content)
    | ColumnHeader(positionInItemProvider: int, width: int, height: int, x: int, y: int, content: Content)
    | TimeLabel(positionInItemProvider: int, width: int, height: int, x: int, y: int, content: Content)
    | ColumnHeaderBackground(positionInItemProvider: int, height: int, x: int, y: int, content: Content)
    | TimeColumnBackground(positionInItemProvider: int, width: int, x: int, y: int, content: Content)
  {
    function Width(): int {
      if ColumnHeaderBackground? then IntMaxValue else width
    }

    function Height(): int {
      if TimeColumnBackground? then IntMaxValue else height
    }

    function Left(): int { x }
    function Top(): int { y }
    function Right(): int { x + Width() }
    function Bottom(): int { y + Height() }
  }

  type Period = it: VirtualMeasuredItem | it.Period?
    witness Period(0, 0, 0, 0, 0, 0, 0, 0, Slot(0))

  type ColumnHeader = it: VirtualMeasuredItem | it.ColumnHeader?
    witness ColumnHeader(0, 0, 0, 0, 0, Slot(0))

  type TimeLabel = it: VirtualMeasuredItem | it.TimeLabel?
    witness TimeLabel(0, 0, 0, 0, 0, LabelText(0))

  /** The four edges are derived from the rectangle, for every kind of item. */
  lemma Edges(it: VirtualMeasuredItem)
    ensures it.Left() == it.x && it.Top() == it.y
    ensures it.Right() == it.x + it.Width()
    ensures it.Bottom() == it.y + it.Height()
    ensures !it.ColumnHeaderBackground? ==> it.Right() == it.x + it.width
    ensures !it.TimeColumnBackground? ==> it.Bottom() == it.y + it.height
  {
  }

  /** Whatever a background record is built with, its open side is `Int.MAX_VALUE`. */
  lemma BackgroundSentinels(position: int, size: int, x: int, y: int, content: Content)
    ensures ColumnHeaderBackground(position, size, x, y, content).Width() == IntMaxValue
    ensures ColumnHeaderBackground(position, size, x, y, content).Height() == size
    ensures TimeColumnBackground(position, size, x, y, content).Height() == IntMaxValue
    ensures TimeColumnBackground(position, size, x, y, content).Width() == size
  {
  }
}
