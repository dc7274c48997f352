# LazyTimetable layout engine in Dafny

This project models the virtual layout and viewport-culling engine of
LazyTimetable, a Jetpack Compose timetable widget written in Kotlin. The
widget has a sticky header row, a sticky time column on the left, and a
scrolling grid of columns. Each column holds periods whose heights come from
their durations.

The engine has three parts, and the model covers all three:

- **The geometry builder** (`LazyTimetableScopeImpl`). It turns a
  declarative description into position records for every item:
  - column headers;
  - periods, stacked one below the other within each column;
  - hourly time labels;
  - two background strips.

  Nothing is rendered at this stage. In the model, each builder call is a
  pure function from one immutable `ScopeState` to the next (`Scope`).
- **The scroll state** (`LazyTimetableState`). It holds:
  - two pixel offsets, each clamped into `[min, 0]`;
  - a remembered first and last visible column, used as a hint by the next
    layout pass;
  - the four-integer save/restore pair.

  This is the `TimetableState` module.
- **The three measurement passes**. Each pass walks its records, skips what
  is off screen, and measures and places the rest:
  - the cell grid (`TimetablePolicy`);
  - the header strip (`ColumnHeaderPolicy`);
  - the time column (`TimeColumnPolicy`).

  The `Layout` module holds what a pass emits.

Two modules hold no source logic of their own:

- `Kotlin` provides the standard-library operations the source relies on, with
  their Kotlin semantics: `/` truncates towards zero, `coerceAtMost` and
  `coerceAtLeast` clamp, and `maxOf`/`minBy` are only defined on non-empty
  collections.
- `Timetable` ties the builder to the passes. It proves that the builder's
  output has the ordering each pass needs for its early `break`s to be safe.

### How the model handles the source

- **Exceptions.** Where the source throws on an empty collection, the model
  returns `None` or the `Threw` outcome. `Threw` carries the state as it was
  changed before the throw.
- **Sentinels.** The `Int.MAX_VALUE` sentinels are kept.
- **Measuring.** Measuring an item with exact constraints is taken to yield a
  placeable of exactly that size.
- **Empty collections.** `timeLabel` calls `minBy` and `maxBy` over all
  periods without a guard, and they throw when there is no period, so
  `AddTimeLabels` returns `None`. The grid pass calls `maxOf` over the
  columns, which throws when there are none, so `Measure` returns `Threw`.
- **Z-order.** Every pass places with `z = 0f`, so every emitted item has
  `z == 0`. Stacking is left to the composition order in LazyTimetable.kt,
  which is not part of this model.

### Behaviours stated as lemmas

- **The grid pass breaks early.** Inside a column it stops at the first
  period left of, right of, or below the viewport. Only periods above the
  top are skipped with `continue`. `MeasureExact` proves the pass still shows
  every on-screen period when both of these hold:
  - every column is ordered (`ColumnOrdered`);
  - the remembered hint skips no visible column (`HintSafe`).

  `BuildIsOrdered` and `FirstPassExact` show that the builder's output
  satisfies the first condition.
- **The hint can hide a visible column.** The pass starts scanning one column
  before the remembered first visible column. A column further left is then
  never examined. `HintCanHideVisibleColumn` gives a concrete example: a
  period is on screen, yet nothing is placed.
- **Padding is added twice.** The header pass adds the left padding and the
  time-column width to a header `x` that already contains them, and adds the
  top padding to a header `y` that already equals it. The time-column pass
  likewise adds the left padding to a label `x` that already equals it.
  `HeaderOffsetFromColumn` states the resulting horizontal offset between a
  header and its column's periods. Whether the composition in LazyTimetable.kt
  cancels this offset is outside this model, so it is stated but not
  claimed as a defect.

## Model

| member | source | states |
|---|---|---|
| Kotlin.Div | lazytimetable/src/main/java/io/moyuru/lazytimetable/LazyTimetableScope.kt:114 | Kotlin `/` truncates towards zero: the quotient is bracketed by the dividend from below for non-negative and from above for negative dividends, and carries the dividend's sign |
| Kotlin.MaxOf | lazytimetable/src/main/java/io/moyuru/lazytimetable/LazyTimetableMeasurementPolicy.kt:76 | `maxOf` over a non-empty list is an element of it that bounds every element |
| Kotlin.CoerceAtMost | lazytimetable/src/main/java/io/moyuru/lazytimetable/LazyTimetableState.kt:41 | `coerceAtMost` returns the value when it does not exceed the maximum and the maximum otherwise, so never more than the maximum |
| Kotlin.CoerceAtLeast | lazytimetable/src/main/java/io/moyuru/lazytimetable/LazyTimetableMeasurementPolicy.kt:31 | `coerceAtLeast` returns the value when it is not below the minimum and the minimum otherwise, so never less than the minimum |
| Kotlin.MinOf | lazytimetable/src/main/java/io/moyuru/lazytimetable/LazyTimetableScope.kt:156 | `minBy` over a non-empty list is an element of it below every element |
| Geometry.Edges | lazytimetable/src/main/java/io/moyuru/lazytimetable/VirtualMeasuredItem.kt:13-16 | left/top are the position; right and bottom add the reported width and height, which are the stored ones except on the open side of a background |
| Geometry.BackgroundSentinels | lazytimetable/src/main/java/io/moyuru/lazytimetable/VirtualMeasuredItem.kt:49-69 | the header background reports width `Int.MAX_VALUE` and its given height; the time-column background reports height `Int.MAX_VALUE` and its given width |
| Scope.GridLeftEdge | lazytimetable/src/main/java/io/moyuru/lazytimetable/LazyTimetableScope.kt:79-80 | the grid's left edge (`timetableViewPortLeft`) is one time-column width right of the left padding, and column 0 starts exactly there |
| Scope.EstimateColumnHeader | lazytimetable/src/main/java/io/moyuru/lazytimetable/LazyTimetableScope.kt:82-98 | a header takes the next provider position, column width and header height, sits at the given top and one column step per column number to the right |
| Scope.EstimatePeriod | lazytimetable/src/main/java/io/moyuru/lazytimetable/LazyTimetableScope.kt:100-121 | a period starts where its predecessor ends (or at the base epoch), sits one vertical spacing below the predecessor's bottom (or the viewport top), lasts its duration, and its height is the duration in whole minutes, truncated towards zero, times the per-minute height; for non-negative sizes that is never more than the exact height and at most 59 seconds' worth less, and it is 0 for less than a minute either way |
| Scope.TruncatedHeight | lazytimetable/src/main/java/io/moyuru/lazytimetable/LazyTimetableScope.kt:114 | for a non-negative duration and per-minute height, whole minutes times the per-minute height lies within 59 seconds' worth below the exact height |
| Scope.AddPeriods | lazytimetable/src/main/java/io/moyuru/lazytimetable/LazyTimetableScope.kt:137-150 | each `item` call appends one period to both the flat list and the column, chained to the previous one, at consecutive provider positions, leaving earlier items alone |
| Scope.Column | lazytimetable/src/main/java/io/moyuru/lazytimetable/LazyTimetableScope.kt:123-152 | `column` numbers the new column by the columns before it, adds its header to the flat list before its periods, lays the periods out as `ColumnLayout` says, keeps positions equal to indices and changes nothing else |
| Scope.Build | lazytimetable/src/main/java/io/moyuru/lazytimetable/LazyTimetableScope.kt:123-152 | a sequence of `column` calls yields every column laid out and headed as specified, the flat list as headers each followed by their periods, positions equal to indices |
| Scope.Flatten | lazytimetable/src/main/java/io/moyuru/lazytimetable/LazyTimetableScope.kt:155 | `flatMap` holds exactly the periods of the columns |
| Scope.LabelEpochs | lazytimetable/src/main/java/io/moyuru/lazytimetable/LazyTimetableScope.kt:159-162 | the sequence yields the start, then one epoch per hour while strictly before the end, and stops at the first hour that is not |
| Scope.MakeLabels | lazytimetable/src/main/java/io/moyuru/lazytimetable/LazyTimetableScope.kt:163-170 | each epoch's label is an hour tall, time-column wide, at the left padding, at its epoch's truncated-minute height below the viewport top, numbered consecutively |
| Scope.TimeRange | lazytimetable/src/main/java/io/moyuru/lazytimetable/LazyTimetableScope.kt:155-157 | the range is absent exactly when there is no period; otherwise its start is the earliest start and its end the latest end, both attained |
| Scope.LabelsAreHourLabels | lazytimetable/src/main/java/io/moyuru/lazytimetable/LazyTimetableScope.kt:159-170 | the generated labels are the hour labels of the range: one at the start, one per later hour before the end, none missing |
| Scope.AddTimeLabels | lazytimetable/src/main/java/io/moyuru/lazytimetable/LazyTimetableScope.kt:154-174 | `timeLabel` fails exactly when there is no period; otherwise it appends the hour labels of the periods' time range to the label and flat lists, keeps positions equal to indices, and changes nothing else: columns, headers and both backgrounds are kept |
| Scope.AppendIndexed | lazytimetable/src/main/java/io/moyuru/lazytimetable/LazyTimetableScope.kt:163-172 | items numbered from the current list size keep every position equal to its index |
| Scope.Background | lazytimetable/src/main/java/io/moyuru/lazytimetable/LazyTimetableScope.kt:176-208 | `background` appends the header strip (origin, viewport-top tall, open width) then the time-column strip (below the viewport top, viewport-left wide, open height), records both, keeps positions equal to indices |
| TimetableState.Fresh | lazytimetable/src/main/java/io/moyuru/lazytimetable/LazyTimetableState.kt:23-35 | a new state has both offsets 0, both hints -1 and both minimums 0 |
| TimetableState.ClampAxis | lazytimetable/src/main/java/io/moyuru/lazytimetable/LazyTimetableState.kt:40-42 | the new offset is the moved offset when within bounds, the crossed bound otherwise, and the minimum whenever the bounds cross |
| TimetableState.Scroll | lazytimetable/src/main/java/io/moyuru/lazytimetable/LazyTimetableState.kt:39-46 | `scroll` changes only the offsets; while an axis's minimum is at most 0 it keeps that offset within `[min, 0]`, and while it is positive (the content fits the viewport) it pins the offset at that minimum; each offset moves by exactly its delta when that stays within bounds |
| TimetableState.ScrollAxesIndependent | lazytimetable/src/main/java/io/moyuru/lazytimetable/LazyTimetableState.kt:39-46 | each new offset depends only on its own axis's offset, delta and minimum |
| TimetableState.ScrollPinsAtBound | lazytimetable/src/main/java/io/moyuru/lazytimetable/LazyTimetableState.kt:40-42 | on either axis whose minimum is at most 0, a drag past either bound leaves that offset exactly at the bound |
| TimetableState.UnclampedScrollsCompose | lazytimetable/src/main/java/io/moyuru/lazytimetable/LazyTimetableState.kt:39-46 | two in-bounds scrolls equal one scroll by the summed deltas |
| TimetableState.ClampIdempotent | lazytimetable/src/main/java/io/moyuru/lazytimetable/LazyTimetableState.kt:39-46 | clamping twice equals clamping once |
| TimetableState.InBoundsIsFixedPoint | lazytimetable/src/main/java/io/moyuru/lazytimetable/LazyTimetableState.kt:39-46 | a zero scroll leaves an in-bounds state unchanged |
| TimetableState.Save | lazytimetable/src/main/java/io/moyuru/lazytimetable/LazyTimetableState.kt:80-87 | the saved list is y offset, x offset, first and last visible column, in that order |
| TimetableState.Restore | lazytimetable/src/main/java/io/moyuru/lazytimetable/LazyTimetableState.kt:88-95 | restoring fails exactly for fewer than four integers; a restored state has both minimums at their initial 0 |
| TimetableState.SaveRestore | lazytimetable/src/main/java/io/moyuru/lazytimetable/LazyTimetableState.kt:79-96 | restore after save gives back offsets and hints, with the scroll minimums reset to 0 |
| TimetableState.RestoreSave | lazytimetable/src/main/java/io/moyuru/lazytimetable/LazyTimetableState.kt:79-96 | save after restore gives back the first four saved integers |
| Layout.Exact | lazytimetable/src/main/java/io/moyuru/lazytimetable/LazyTimetableMeasurementPolicy.kt:55-60 | exact constraints pin minimum and maximum width to the width and minimum and maximum height to the height |
| Layout.ColumnNumberOr | lazytimetable/src/main/java/io/moyuru/lazytimetable/LazyTimetableMeasurementPolicy.kt:67-68 | `?.columnNumber ?: -1` is the item's column number when there is an item with one, -1 otherwise |
| Layout.FirstOrNull | lazytimetable/src/main/java/io/moyuru/lazytimetable/LazyTimetableMeasurementPolicy.kt:67 | `firstOrNull` is absent exactly for an empty list and otherwise its first item |
| Layout.LastOrNull | lazytimetable/src/main/java/io/moyuru/lazytimetable/LazyTimetableMeasurementPolicy.kt:68 | `lastOrNull` is absent exactly for an empty list and otherwise its last item |
| TimetablePolicy.Place | lazytimetable/src/main/java/io/moyuru/lazytimetable/LazyTimetableMeasurementPolicy.kt:47-63 | a period is placed at its position shifted by both scroll offsets, measured at exactly its size, with its column number and provider position, at z 0, and is on screen exactly when its placement is |
| TimetablePolicy.ScanColumn | lazytimetable/src/main/java/io/moyuru/lazytimetable/LazyTimetableMeasurementPolicy.kt:37-64 | one column's loop emits placements of on-screen periods of that column at strictly increasing positions (`PlacedSubsequence`: each period at most once, in column order), at z 0 |
| TimetablePolicy.ScanColumns | lazytimetable/src/main/java/io/moyuru/lazytimetable/LazyTimetableMeasurementPolicy.kt:35-65 | the column loop emits only placements of on-screen periods of the columns it visits |
| TimetablePolicy.ScanStart | lazytimetable/src/main/java/io/moyuru/lazytimetable/LazyTimetableMeasurementPolicy.kt:31 | the scan starts one column before the hint, or at column 0 exactly when the hint is at most 1 |
| TimetablePolicy.HorizontalMin | lazytimetable/src/main/java/io/moyuru/lazytimetable/LazyTimetableMeasurementPolicy.kt:69-74 | scrolled to the horizontal minimum, the last column's first period ends the right padding inside the viewport; 0 without such a period |
| TimetablePolicy.ColumnBottoms | lazytimetable/src/main/java/io/moyuru/lazytimetable/LazyTimetableMeasurementPolicy.kt:76 | a column's bottom is its last period's bottom, 0 for an empty column |
| TimetablePolicy.VerticalMin | lazytimetable/src/main/java/io/moyuru/lazytimetable/LazyTimetableMeasurementPolicy.kt:75-77 | scrolled to the vertical minimum, the deepest column ends exactly the bottom padding above the viewport bottom and no column ends lower; absent without columns |
| TimetablePolicy.Measure | lazytimetable/src/main/java/io/moyuru/lazytimetable/LazyTimetableMeasurementPolicy.kt:29-84 | a pass throws exactly without columns, keeps the offsets, fills the constraints, places only placements of on-screen periods from the scan-start column on (each at z 0), records the first and last emitted column (or -1) and both scroll minimums |
| TimetablePolicy.ScanColumnExact | lazytimetable/src/main/java/io/moyuru/lazytimetable/LazyTimetableMeasurementPolicy.kt:41-46 | in an ordered column the `break`s lose nothing: the loop emits exactly the on-screen periods in order |
| TimetablePolicy.ScanColumnsExact | lazytimetable/src/main/java/io/moyuru/lazytimetable/LazyTimetableMeasurementPolicy.kt:35-65 | over ordered columns the nested loops emit exactly the on-screen periods, column by column |
| TimetablePolicy.SkipInvisibleColumns | lazytimetable/src/main/java/io/moyuru/lazytimetable/LazyTimetableMeasurementPolicy.kt:31-35 | starting the scan later loses nothing when the skipped columns show nothing |
| TimetablePolicy.MeasureExact | lazytimetable/src/main/java/io/moyuru/lazytimetable/LazyTimetableMeasurementPolicy.kt:29-65 | with at least one column, ordered columns and a safe hint, a pass places every on-screen period and nothing else |
| TimetablePolicy.ScanColumnsInColumnOrder | lazytimetable/src/main/java/io/moyuru/lazytimetable/LazyTimetableMeasurementPolicy.kt:35-65 | for `Numbered` columns (every period carries its column's index), emitted items come in non-decreasing column order, all from the scan start on |
| TimetablePolicy.HintsOrdered | lazytimetable/src/main/java/io/moyuru/lazytimetable/LazyTimetableMeasurementPolicy.kt:67-68 | for `Numbered` columns, the recorded first visible column never exceeds the last, and is -1 or at least the scan start |
| TimetablePolicy.NothingVisibleRestartsAtZero | lazytimetable/src/main/java/io/moyuru/lazytimetable/LazyTimetableMeasurementPolicy.kt:67-68 | after a pass that shows nothing the next pass scans from column 0 |
| TimetablePolicy.MeasureIdempotent | lazytimetable/src/main/java/io/moyuru/lazytimetable/LazyTimetableMeasurementPolicy.kt:29-77 | with at least one column, ordered columns whose periods carry their column's number (`Numbered`) and a safe hint, a second pass over the same geometry and offsets gives the same layout and state |
| TimetablePolicy.HintCanHideVisibleColumn | lazytimetable/src/main/java/io/moyuru/lazytimetable/LazyTimetableMeasurementPolicy.kt:31-35 | a remembered hint two columns to the right makes a pass place nothing although a period of column 0 is on screen |
| ColumnHeaderPolicy.PlaceHeader | lazytimetable/src/main/java/io/moyuru/lazytimetable/columnheader/LazyColumnHeaderMeasurementPolicy.kt:31-52 | a header is placed at padding plus time column plus its x plus the horizontal scroll, padding plus its y, exact size, column number and index both its list index, on screen exactly when its placement is |
| ColumnHeaderPolicy.ScanHeaders | lazytimetable/src/main/java/io/moyuru/lazytimetable/columnheader/LazyColumnHeaderMeasurementPolicy.kt:29-53 | the header loop emits placements of on-screen headers only, in increasing index order |
| ColumnHeaderPolicy.ScanHeadersExact | lazytimetable/src/main/java/io/moyuru/lazytimetable/columnheader/LazyColumnHeaderMeasurementPolicy.kt:32-35 | with headers ordered left to right, the `break` loses nothing: the loop emits exactly the on-screen headers |
| ColumnHeaderPolicy.MeasureHeaders | lazytimetable/src/main/java/io/moyuru/lazytimetable/columnheader/LazyColumnHeaderMeasurementPolicy.kt:22-59 | the strip throws exactly when the loop emits nothing (for ordered headers: when no header is on screen); otherwise it is as wide as the constraints and as tall as the lowest emitted header's bottom |
| ColumnHeaderPolicy.HeadersIgnoreVerticalScroll | lazytimetable/src/main/java/io/moyuru/lazytimetable/columnheader/LazyColumnHeaderMeasurementPolicy.kt:24-31 | the header strip depends on the horizontal offset only |
| ColumnHeaderPolicy.HeadersExact | lazytimetable/src/main/java/io/moyuru/lazytimetable/columnheader/LazyColumnHeaderMeasurementPolicy.kt:29-53 | with ordered headers a header is placed exactly when it is on screen |
| TimeColumnPolicy.PlaceLabel | lazytimetable/src/main/java/io/moyuru/lazytimetable/timecolumn/LazyTimeColumnMeasurementPolicy.kt:30-46 | a label is placed at its x plus the left padding, its y plus the vertical scroll, exactly its width wide, 0 to the viewport height tall, without column number, on screen exactly when its placement is |
| TimeColumnPolicy.ScanLabels | lazytimetable/src/main/java/io/moyuru/lazytimetable/timecolumn/LazyTimeColumnMeasurementPolicy.kt:23-47 | the label loop emits placements of on-screen labels only, in increasing index order |
| TimeColumnPolicy.ScanLabelsExact | lazytimetable/src/main/java/io/moyuru/lazytimetable/timecolumn/LazyTimeColumnMeasurementPolicy.kt:26-29 | with labels ordered top to bottom, the `break` loses nothing: the loop emits exactly the on-screen labels |
| TimeColumnPolicy.MeasureLabels | lazytimetable/src/main/java/io/moyuru/lazytimetable/timecolumn/LazyTimeColumnMeasurementPolicy.kt:19-53 | the column throws exactly when the loop emits nothing (for ordered labels: when no label is on screen); otherwise it is as tall as the constraints and as wide as the widest emitted label |
| TimeColumnPolicy.LabelsIgnoreHorizontalScroll | lazytimetable/src/main/java/io/moyuru/lazytimetable/timecolumn/LazyTimeColumnMeasurementPolicy.kt:21-25 | the time column depends on the vertical offset only |
| TimeColumnPolicy.LabelsExact | lazytimetable/src/main/java/io/moyuru/lazytimetable/timecolumn/LazyTimeColumnMeasurementPolicy.kt:23-47 | with ordered labels a label is placed exactly when it is on screen |
| Timetable.ColumnClosedForm | lazytimetable/src/main/java/io/moyuru/lazytimetable/LazyTimetableScope.kt:106-118 | period k starts at the base epoch plus the durations before it, ends after its own, and sits k+1 spacings plus the heights before it below the viewport top |
| Timetable.Stacked | lazytimetable/src/main/java/io/moyuru/lazytimetable/LazyTimetableScope.kt:106-118 | with non-negative sizes, every period starts at least one spacing below the bottom of every earlier period in its column |
| Timetable.ColumnIsOrdered | lazytimetable/src/main/java/io/moyuru/lazytimetable/LazyTimetableScope.kt:100-121 | with non-negative durations, per-minute height and vertical spacing, a built column shares one x and width and its y never decreases |
| Timetable.ColumnsApart | lazytimetable/src/main/java/io/moyuru/lazytimetable/LazyTimetableScope.kt:115-117 | with non-negative column width and spacing, columns are a whole number of column steps apart, so a later column never overlaps an earlier one |
| Timetable.ColumnLeftMonotone | lazytimetable/src/main/java/io/moyuru/lazytimetable/LazyTimetableScope.kt:92-94 | with a non-negative column step (width plus spacing), column left edges never decrease with the column number |
| Timetable.BuildIsBuilt | lazytimetable/src/main/java/io/moyuru/lazytimetable/LazyTimetableScope.kt:123-152 | the builder's columns and headers are exactly those `ColumnLayout` and `HeaderAt` describe, with no labels yet |
| Timetable.BuiltColumnsOrdered | lazytimetable/src/main/java/io/moyuru/lazytimetable/LazyTimetableScope.kt:100-152 | with non-negative durations, per-minute height and spacing, built columns are ordered and each period carries its column's number |
| Timetable.BuiltHeadersOrdered | lazytimetable/src/main/java/io/moyuru/lazytimetable/LazyTimetableScope.kt:82-98 | built headers run left to right while a column step is non-negative |
| Timetable.BuildIsOrdered | lazytimetable/src/main/java/io/moyuru/lazytimetable/LazyTimetableScope.kt:123-152 | with non-negative durations, per-minute height and vertical spacing and a non-negative column step, the builder's columns are ordered and numbered and its headers ordered left to right |
| Timetable.FirstPassExact | lazytimetable/src/main/java/io/moyuru/lazytimetable/LazyTimetableMeasurementPolicy.kt:29-65 | with at least one column and non-negative durations, per-minute height and vertical spacing, the first pass over built columns (hints at -1) places exactly their on-screen periods |
| Timetable.BuiltHorizontalMin | lazytimetable/src/main/java/io/moyuru/lazytimetable/LazyTimetableMeasurementPolicy.kt:69-74 | when the last built column has a period, the horizontal bound puts that column's right edge the right padding inside the viewport |
| Timetable.BuiltHeadersExact | lazytimetable/src/main/java/io/moyuru/lazytimetable/columnheader/LazyColumnHeaderMeasurementPolicy.kt:29-53 | with a non-negative column step, each header of a built timetable is shown exactly when on screen |
| Timetable.HeaderOffsetFromColumn | lazytimetable/src/main/java/io/moyuru/lazytimetable/columnheader/LazyColumnHeaderMeasurementPolicy.kt:31 | a header is placed the left padding plus the time-column width to the right of its column's periods |
| Timetable.EarliestStartIsBase | lazytimetable/src/main/java/io/moyuru/lazytimetable/LazyTimetableScope.kt:155-156 | with non-negative durations the earliest period of a built timetable starts at the base epoch |
| Timetable.HourLabelY | lazytimetable/src/main/java/io/moyuru/lazytimetable/LazyTimetableScope.kt:166-168 | the k-th hour label from the base epoch sits k hours' height (60·k minutes) below the viewport top |
| Timetable.LabelsFromBase | lazytimetable/src/main/java/io/moyuru/lazytimetable/LazyTimetableScope.kt:159-170 | hour labels from the base epoch start at the viewport top with the base epoch's text, each one hour's height below the previous |
| Timetable.HourLabelsOrdered | lazytimetable/src/main/java/io/moyuru/lazytimetable/LazyTimetableScope.kt:159-170 | with a non-negative per-minute height, hour labels from the base epoch run top to bottom, as the time-column pass needs |
| Timetable.BuiltLabels | lazytimetable/src/main/java/io/moyuru/lazytimetable/LazyTimetableScope.kt:154-174 | with non-negative durations, the labels added to built columns with at least one period are the hour labels from the base epoch to the latest period end |
| Timetable.AddedLabels | lazytimetable/src/main/java/io/moyuru/lazytimetable/LazyTimetableScope.kt:154-174 | on a scope without labels, the added labels are the hour labels of the periods' range |
| Timetable.TwoSlotColumn | lazytimetable/src/main/java/io/moyuru/lazytimetable/LazyTimetableScope.kt:100-121 | an hour and a half hour at 2 px per minute give periods 120 and 60 px tall at y 0 and 120, running 0–3600 and 3600–5400 |
| Timetable.TwoHourLabels | lazytimetable/src/main/java/io/moyuru/lazytimetable/LazyTimetableScope.kt:159-162 | from 0:00 to 1:30 there are exactly two labels, 0:00 and 1:00 |

## Left out

- `fling` and `stopFling`: animated decay driven by a coroutine and a
  float animation. Each frame's clamp is the same as in `scroll`, which is
  modelled.
- `canScroll` and the whole composition in LazyTimetable.kt: the gesture
  wiring, the nesting of the three lazy layouts, the colours and the sample
  content. This is composition, not layout logic.
- Float drag deltas: `deltaX.toInt()` is taken as already done, so `Scroll`
  takes integer deltas.
- Dp-to-pixel rounding: every size enters as pixels. `timetableViewPortTop`
  is a separate `Config` field, because the source rounds the sum of the top
  padding and the header height as one value.
- 32-bit overflow: all arithmetic is on unbounded integers. Pixel sizes
  wrap only beyond `Int.MAX_VALUE` pixels, apart from the sentinel edges
  below. The label offset `(it - baseEpochSec).toInt()` is in seconds, so it
  wraps once a label lies more than `Int.MAX_VALUE` seconds (about 68 years)
  after the base epoch; the model does not wrap it.
- Geometry.Edges: the open edge of a background is the unbounded sum of its
  position and `Int.MAX_VALUE`. In Kotlin that sum wraps: the time-column
  background sits at `y = timetableViewPortTop`, so its `bottom` is negative
  for any positive viewport top. No pass reads a background's edges.
- `Kotlin.Div`: does not model the Long-to-Int truncation that comes before
  the division in the label position.
- The item providers and `VisibleItem` as a separate class: the providers
  only forward to content lambdas. `VisibleItem` is the `Layout.VisibleItem`
  record, where the measured placeable is replaced by its constraints.
- TimetablePolicy.Measure: Compose's `Constraints` rejects a negative size,
  so the source's pass throws when it measures an on-screen period whose
  height is negative (a duration of -60 seconds or less). The model does not
  check sizes: it emits such a period and returns `Measured`.
- ColumnHeaderPolicy.MeasureHeaders and TimeColumnPolicy.MeasureLabels: for
  the same reason the source throws on an on-screen header with a negative
  column width or header height, or a label with a negative width; the model
  emits them.
- `measure` and `place`: they are Compose runtime calls. A pass records the
  constraints and position each item would be measured and placed with.
- Composable content: it is an opaque `Content` tag.
- The sample app's own `Period` type and the library's older `Period.kt`
  record: neither is used by the engine.
