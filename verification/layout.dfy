/** What a measurement pass emits (VisibleItem.kt, with `measure` and
    `place` abstracted): for every item it decided to show, the provider
    index it measures, the constraints it measures with, and where it is
    placed. Measuring with exact constraints is taken to yield a placeable
    of exactly that size. */
module Layout {
  import opened Kotlin

  datatype Constraints = Constraints(minWidth: int, maxWidth: int, minHeight: int, maxHeight: int)

  /** `Constraints(minWidth = w, maxWidth = w, minHeight = h, maxHeight = h)`. */
  function Exact(width: int, height: int): (c: Constraints)
    ensures c.minWidth == c.maxWidth == width && c.minHeight == c.maxHeight == height
  {
    Constraints(width, width, height, height)
  }

  /** A measured-and-placed item. `z` is the placement's z-index (the source
      passes `0f` everywhere), `columnNumber` is `null` for time labels. */
  datatype VisibleItem = VisibleItem(x: int, y: int, z: int, columnNumber: Option<int>,
                                     index: int, constraints: Constraints)

  /** `layout(width, height) { place each item }`. */
  datatype Layout = Layout(width: int, height: int, placements: seq<VisibleItem>)

  /** The column number of an item, or -1 for none (`?.columnNumber ?: -1`). */
  function ColumnNumberOr(v: Option<VisibleItem>): (n: int)
    ensures v.Some? && v.value.columnNumber.Some? ==> n == v.value.columnNumber.value
    ensures v.None? || v.value.columnNumber.None? ==> n == -1
  {
    if v.Some? && v.value.columnNumber.Some? then v.value.columnNumber.value else -1
  }

  /** `firstOrNull()`: the first item, `null` for an empty list. */
  function FirstOrNull(items: seq<VisibleItem>): (r: Option<VisibleItem>)
    ensures r.None? <==> items == []
    ensures r.Some? ==> r.value == items[0]
  {
    if items == [] then None else Some(items[0])
  }

  /** `lastOrNull()`: the last item, `null` for an empty list. */
  function LastOrNull(items: seq<VisibleItem>): (r: Option<VisibleItem>)
    ensures r.None? <==> items == []
    ensures r.Some? ==> r.value == items[|items| - 1]
  {
    if items == [] then None else Some(items[|items| - 1])
  }
}
