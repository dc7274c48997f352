/** The layout builder (`LazyTimetableScopeImpl` in LazyTimetableScope.kt).
    The source's declarative DSL fills mutable lists; here each DSL call is a
    pure function from one immutable `ScopeState` to the next, and a whole
    timetable description is a fold of `Column` over its column specs. */
module Scope {
  import opened Kotlin
  import opened Geometry

  /** The builder's pixel configuration. All values are already in pixels;
      `timetableViewPortTop` is the rounded sum of the top padding and the
      header height, which the source rounds as one value. */
  datatype Config = Config(
    columnWidthPx: int,
    heightPerMinutePx: int,
    columnHeaderHeightPx: int,
    timeColumnWidthPx: int,
    verticalSpacingPx: int,
    horizontalSpacingPx: int,
    baseEpochSec: int,
    paddingTopPx: int,
    paddingLeftPx: int,
    timetableViewPortTop: int)
  {
    /** Left edge of the scrolling grid: the time column sits between the
        left padding and the grid. */
    function TimetableViewPortLeft(): int {
      paddingLeftPx + timeColumnWidthPx
    }
  }

  /** One `item(durationSec) { content }` call of a column's DSL block. */
  datatype Entry = Entry(durationSec: int, content: Content)

  /** One `column(header) { … }` call: the header content and its items in order. */
  datatype ColumnSpec = ColumnSpec(header: Content, entries: seq<Entry>)

  /** What the builder has accumulated so far. */
  datatype ScopeState = ScopeState(
    items: seq<VirtualMeasuredItem>,
    columnHeaders: seq<ColumnHeader>,
    timeLabels: seq<TimeLabel>,
    columns: seq<seq<Period>>,
    columnHeaderBackground: Option<VirtualMeasuredItem>,
    timeColumnBackground: Option<VirtualMeasuredItem>)

  const EmptyScope := ScopeState([], [], [], [], None, None)

  /** Every item's `positionInItemProvider` is its index in the flat list. */
  predicate Indexed(items: seq<VirtualMeasuredItem>) {
    forall i :: 0 <= i < |items| ==> items[i].positionInItemProvider == i
  }

  /** The x of column `n`: index-based, never compacted. */
  function ColumnLeft(cfg: Config, n: int): int {
    cfg.TimetableViewPortLeft() + cfg.columnWidthPx * n + cfg.horizontalSpacingPx * n
  }

  /** The grid's left edge lies one time-column width right of the left
      padding, and column 0 starts exactly there. */
  lemma GridLeftEdge(cfg: Config)
    ensures cfg.TimetableViewPortLeft() - cfg.timeColumnWidthPx == cfg.paddingLeftPx
    ensures cfg.timeColumnWidthPx >= 0 ==> cfg.TimetableViewPortLeft() >= cfg.paddingLeftPx
    ensures ColumnLeft(cfg, 0) == cfg.TimetableViewPortLeft()
  {
  }

  function EstimateColumnHeader(cfg: Config, columnNumber: int, timetableViewPortLeft: int,
                                paddingTop: int, content: Content, itemCount: int): (h: ColumnHeader)
    ensures h.positionInItemProvider == itemCount && h.content == content
    ensures h.Width() == cfg.columnWidthPx && h.Height() == cfg.columnHeaderHeightPx
    ensures h.x == timetableViewPortLeft + columnNumber * (cfg.columnWidthPx + cfg.horizontalSpacingPx)
    ensures h.y == paddingTop && h.Bottom() == paddingTop + cfg.columnHeaderHeightPx
  {
    ColumnHeader(itemCount, cfg.columnWidthPx, cfg.columnHeaderHeightPx,
                 timetableViewPortLeft + cfg.columnWidthPx * columnNumber + cfg.horizontalSpacingPx * columnNumber,
                 paddingTop, content)
  }

  /** Period `k` of `col` is the one built for entry `e` of column `n`:
      it shares the column's x and width, its height is the duration in whole
      minutes times the per-minute height, and it is chained to its
      predecessor (or to the viewport top and the base epoch when first). */
  predicate PeriodOf(cfg: Config, n: int, col: seq<Period>, k: int, e: Entry)
    requires 0 <= k < |col|
  {
    var p := col[k];
    && p.columnNumber == n
    && p.x == ColumnLeft(cfg, n)
    && p.width == cfg.columnWidthPx
    && p.height == Div(e.durationSec, 60) * cfg.heightPerMinutePx
    && p.content == e.content
    && p.endAtSec == p.startAtSec + e.durationSec
    && (k == 0 ==> p.y == cfg.timetableViewPortTop + cfg.verticalSpacingPx && p.startAtSec == cfg.baseEpochSec)
    && (k > 0 ==> p.y == col[k - 1].Bottom() + cfg.verticalSpacingPx && p.startAtSec == col[k - 1].endAtSec)
  }

  /** `col` is exactly the column the builder lays out for `entries` as column `n`. */
  predicate ColumnLayout(cfg: Config, n: int, entries: seq<Entry>, col: seq<Period>) {
    && |col| == |entries|
    && forall k :: 0 <= k < |col| ==> PeriodOf(cfg, n, col, k, entries[k])
  }

  function EstimatePeriod(cfg: Config, columnNumber: int, previous: Option<Period>,
                          durationSec: int, content: Content, itemCount: int): (p: Period)
    ensures p.positionInItemProvider == itemCount && p.columnNumber == columnNumber
    ensures p.x == ColumnLeft(cfg, columnNumber) && p.Width() == cfg.columnWidthPx
    ensures p.y == (if previous.Some? then previous.value.Bottom() else cfg.timetableViewPortTop)
                   + cfg.verticalSpacingPx
    ensures p.startAtSec == (if previous.Some? then previous.value.endAtSec else cfg.baseEpochSec)
    ensures p.endAtSec - p.startAtSec == durationSec
    // whole minutes, truncated towards zero, times the per-minute height
    ensures p.Height() == Div(durationSec, 60) * cfg.heightPerMinutePx
    // the height is the duration truncated to whole minutes, never rounded up
    ensures durationSec >= 0 && cfg.heightPerMinutePx >= 0 ==>
              0 <= p.Height() * 60 <= durationSec * cfg.heightPerMinutePx <= p.Height() * 60 + 59 * cfg.heightPerMinutePx
    // less than a whole minute either way is truncated to nothing
    ensures -60 < durationSec < 60 ==> p.Height() == 0
  {
    var previousBottom := if previous.Some? then previous.value.Bottom() else cfg.timetableViewPortTop;
    var startAt := if previous.Some? then previous.value.endAtSec else cfg.baseEpochSec;
    var minutes := Div(durationSec, 60);
    TruncatedHeight(durationSec, cfg.heightPerMinutePx);
    Period(columnNumber, startAt, startAt + durationSec, itemCount, cfg.columnWidthPx,
           minutes * cfg.heightPerMinutePx, ColumnLeft(cfg, columnNumber),
           previousBottom + cfg.verticalSpacingPx, content)
  }

  /** Whole minutes times a per-minute height never exceeds the exact
      (fractional) height and falls short of it by at most 59 seconds' worth. */
  lemma TruncatedHeight(d: int, h: int)
    ensures 0 <= d && 0 <= h ==>
              0 <= Div(d, 60) * h * 60 <= d * h <= Div(d, 60) * h * 60 + 59 * h
  {
    if 0 <= d && 0 <= h {
      WholeMinutes(d, Div(d, 60), h);
    }
  }

  lemma WholeMinutes(d: int, m: int, h: int)
    requires 0 <= h && 0 <= m && m * 60 <= d < m * 60 + 60
    ensures 0 <= m * h * 60 <= d * h <= m * h * 60 + 59 * h
  {
    assert (m * 60) * h <= d * h by {
      MulMonotone(m * 60, d, h);
    }
    assert d * h <= (m * 60 + 59) * h by {
      MulMonotone(d, m * 60 + 59, h);
    }
  }

  lemma MulMonotone(a: int, b: int, h: int)
    requires a <= b && 0 <= h
    ensures a * h <= b * h
  {
  }

  /** Appends one period per entry to both the flat item list and the column,
      each chained to the column's previous last period. */
  function AddPeriods(cfg: Config, columnNumber: int, items: seq<VirtualMeasuredItem>,
                      column: seq<Period>, entries: seq<Entry>): (r: (seq<VirtualMeasuredItem>, seq<Period>))
    decreases |entries|
    ensures |r.1| == |column| + |entries|
    ensures r.1[..|column|] == column
    ensures r.0 == items + r.1[|column|..]
    ensures forall k :: 0 <= k < |entries| ==> PeriodOf(cfg, columnNumber, r.1, |column| + k, entries[k])
    ensures forall i :: |column| <= i < |r.1| ==> r.1[i].positionInItemProvider == |items| + i - |column|
  {
    if entries == [] then (items, column)
    else
      var previous := if column == [] then None else Some(column[|column| - 1]);
      var p := EstimatePeriod(cfg, columnNumber, previous, entries[0].durationSec, entries[0].content, |items|);
      AddPeriods(cfg, columnNumber, items + [p], column + [p], entries[1..])
  }

  /** The header of column `n`: aligned with the column's periods, at the top padding. */
  predicate HeaderAt(cfg: Config, n: int, h: ColumnHeader, content: Content) {
    && h.x == ColumnLeft(cfg, n)
    && h.y == cfg.paddingTopPx
    && h.width == cfg.columnWidthPx
    && h.height == cfg.columnHeaderHeightPx
    && h.content == content
  }

  /** `column(header) { … }`: the new column is numbered by the columns before
      it; its header enters the flat list before its periods. */
  function Column(cfg: Config, s: ScopeState, spec: ColumnSpec): (s': ScopeState)
    ensures |s'.columns| == |s.columns| + 1 && s'.columns[..|s.columns|] == s.columns
    ensures ColumnLayout(cfg, |s.columns|, spec.entries, s'.columns[|s.columns|])
    ensures |s'.columnHeaders| == |s.columnHeaders| + 1
    ensures s'.columnHeaders[..|s.columnHeaders|] == s.columnHeaders
    ensures HeaderAt(cfg, |s.columns|, s'.columnHeaders[|s.columnHeaders|], spec.header)
    ensures s'.items == s.items + [s'.columnHeaders[|s.columnHeaders|]] + s'.columns[|s.columns|]
    ensures Indexed(s.items) ==> Indexed(s'.items)
    ensures s'.timeLabels == s.timeLabels
    ensures s'.columnHeaderBackground == s.columnHeaderBackground
    ensures s'.timeColumnBackground == s.timeColumnBackground
  {
    var columnNumber := |s.columns|;
    var header := EstimateColumnHeader(cfg, columnNumber, cfg.TimetableViewPortLeft(),
                                       cfg.paddingTopPx, spec.header, |s.items|);
    var r := AddPeriods(cfg, columnNumber, s.items + [header], [], spec.entries);
    assert r.1[0..] == r.1;
    s.(items := r.0, columnHeaders := s.columnHeaders + [header], columns := s.columns + [r.1])
  }

  /** The flat item list of a sequence of columns: each header, then its periods. */
  function FlatItems(headers: seq<ColumnHeader>, columns: seq<seq<Period>>): seq<VirtualMeasuredItem>
    requires |headers| == |columns|
  {
    if columns == [] then []
    else FlatItems(headers[..|headers| - 1], columns[..|columns| - 1])
         + [headers[|headers| - 1]] + columns[|columns| - 1]
  }

  /** A whole DSL block: `column(…)` called once per spec, in order. */
  function Build(cfg: Config, specs: seq<ColumnSpec>): (s: ScopeState)
    ensures |s.columns| == |specs| && |s.columnHeaders| == |specs|
    ensures forall c :: 0 <= c < |specs| ==> ColumnLayout(cfg, c, specs[c].entries, s.columns[c])
    ensures forall c :: 0 <= c < |specs| ==> HeaderAt(cfg, c, s.columnHeaders[c], specs[c].header)
    ensures s.items == FlatItems(s.columnHeaders, s.columns)
    ensures Indexed(s.items)
    ensures s.timeLabels == [] && s.columnHeaderBackground.None? && s.timeColumnBackground.None?
  {
    if specs == [] then EmptyScope
    else
      var before := Build(cfg, specs[..|specs| - 1]);
      var s := Column(cfg, before, specs[|specs| - 1]);
      assert s.columnHeaders[..|s.columnHeaders| - 1] == before.columnHeaders;
      assert s.columns[..|s.columns| - 1] == before.columns;
      s
  }

  /** All periods of all columns, column by column (`columns.flatMap { it }`). */
  function Flatten(columns: seq<seq<Period>>): (ps: seq<Period>)
    ensures forall c, k :: 0 <= c < |columns| && 0 <= k < |columns[c]| ==> columns[c][k] in ps
    ensures forall p :: p in ps ==> exists c :: 0 <= c < |columns| && p in columns[c]
  {
    if columns == [] then []
    else columns[0] + Flatten(columns[1..])
  }

  function StartTimes(ps: seq<Period>): (ts: seq<int>)
    ensures |ts| == |ps| && forall i :: 0 <= i < |ps| ==> ts[i] == ps[i].startAtSec
  {
    seq(|ps|, i requires 0 <= i < |ps| => ps[i].startAtSec)
  }

  function EndTimes(ps: seq<Period>): (ts: seq<int>)
    ensures |ts| == |ps| && forall i :: 0 <= i < |ps| ==> ts[i] == ps[i].endAtSec
  {
    seq(|ps|, i requires 0 <= i < |ps| => ps[i].endAtSec)
  }

  /** The epochs `generateSequence(start) { next < end ? next : null }` yields:
      the start itself, then one per hour while strictly before the end. */
  function LabelEpochs(start: int, end: int): (ts: seq<int>)
    decreases end - start
    ensures |ts| >= 1
    ensures forall k :: 0 <= k < |ts| ==> ts[k] == start + 3600 * k
    ensures forall k :: 1 <= k < |ts| ==> ts[k] < end
    ensures start + 3600 * |ts| >= end
  {
    var next := start + 60 * 60;
    [start] + (if next < end then LabelEpochs(next, end) else [])
  }

  /** The label of epoch `t`: an hour tall, in the time column, at the
      height of `t` in the grid. */
  predicate LabelAt(cfg: Config, tl: TimeLabel, t: int) {
    && tl.width == cfg.timeColumnWidthPx
    && tl.height == 60 * cfg.heightPerMinutePx
    && tl.x == cfg.paddingLeftPx
    && tl.y == cfg.timetableViewPortTop + Div(t - cfg.baseEpochSec, 60) * cfg.heightPerMinutePx
    && tl.content == LabelText(t)
  }

  function MakeLabels(cfg: Config, epochs: seq<int>, firstPosition: int): (labels: seq<TimeLabel>)
    ensures |labels| == |epochs|
    ensures forall k :: 0 <= k < |labels| ==>
              LabelAt(cfg, labels[k], epochs[k]) && labels[k].positionInItemProvider == firstPosition + k
  {
    seq(|epochs|, k requires 0 <= k < |epochs| =>
      TimeLabel(firstPosition + k, cfg.timeColumnWidthPx, 60 * cfg.heightPerMinutePx, cfg.paddingLeftPx,
                cfg.timetableViewPortTop + Div(epochs[k] - cfg.baseEpochSec, 60) * cfg.heightPerMinutePx,
                LabelText(epochs[k])))
  }

  /** The earliest period start and the latest period end (`minBy`/`maxBy`);
      `None` for no periods, where the source throws. */
  function TimeRange(ps: seq<Period>): (r: Option<(int, int)>)
    ensures r.None? <==> ps == []
    ensures r.Some? ==>
              && (exists i :: 0 <= i < |ps| && ps[i].startAtSec == r.value.0)
              && (forall i :: 0 <= i < |ps| ==> r.value.0 <= ps[i].startAtSec)
              && (exists i :: 0 <= i < |ps| && ps[i].endAtSec == r.value.1)
              && (forall i :: 0 <= i < |ps| ==> ps[i].endAtSec <= r.value.1)
  {
    if ps == [] then None
    else Some((MinOf(StartTimes(ps)), MaxOf(EndTimes(ps))))
  }

  /** `labels` are the hour labels from `start` until `end`: the first at
      `start`, one per hour after it, each later one strictly before `end`,
      and none missing. */
  predicate HourLabels(cfg: Config, labels: seq<TimeLabel>, start: int, end: int) {
    && |labels| >= 1
    && (forall k :: 0 <= k < |labels| ==>
          LabelAt(cfg, labels[k], start + 3600 * k) && (k >= 1 ==> start + 3600 * k < end))
    && start + 3600 * |labels| >= end
  }

  /** `timeLabel(renderer)`: hour labels over the time range of all periods,
      appended to the flat list. `None` when there is no period at all. */
  function AddTimeLabels(cfg: Config, s: ScopeState): (r: Option<ScopeState>)
    ensures r.None? <==> Flatten(s.columns) == []
    ensures r.Some? ==>
              && |s.timeLabels| <= |r.value.timeLabels|
              && r.value.timeLabels[..|s.timeLabels|] == s.timeLabels
              && r.value.items == s.items + r.value.timeLabels[|s.timeLabels|..]
              && var range := TimeRange(Flatten(s.columns)).value;
                 HourLabels(cfg, r.value.timeLabels[|s.timeLabels|..], range.0, range.1)
    ensures r.Some? ==> (Indexed(s.items) ==> Indexed(r.value.items))
    ensures r.Some? ==> r.value.columns == s.columns && r.value.columnHeaders == s.columnHeaders
    // nothing but the flat list and the labels changes; the backgrounds survive
    ensures r.Some? ==> r.value == s.(items := r.value.items, timeLabels := r.value.timeLabels)
  {
    var range := TimeRange(Flatten(s.columns));
    if range.None? then None
    else
      var labels := MakeLabels(cfg, LabelEpochs(range.value.0, range.value.1), |s.items|);
      LabelsAreHourLabels(cfg, range.value.0, range.value.1, |s.items|);
      AppendIndexed(s.items, labels);
      assert (s.timeLabels + labels)[|s.timeLabels|..] == labels;
      assert (s.timeLabels + labels)[..|s.timeLabels|] == s.timeLabels;
      Some(s.(items := s.items + labels, timeLabels := s.timeLabels + labels))
  }

  lemma LabelsAreHourLabels(cfg: Config, start: int, end: int, firstPosition: int)
    ensures HourLabels(cfg, MakeLabels(cfg, LabelEpochs(start, end), firstPosition), start, end)
  {
    var epochs := LabelEpochs(start, end);
    var labels := MakeLabels(cfg, epochs, firstPosition);
    forall k | 0 <= k < |labels|
      ensures LabelAt(cfg, labels[k], start + 3600 * k) && (k >= 1 ==> start + 3600 * k < end)
    {
      assert epochs[k] == start + 3600 * k;
    }
  }

  /** Items numbered from the end of an indexed list keep it indexed. */
  lemma AppendIndexed(items: seq<VirtualMeasuredItem>, more: seq<TimeLabel>)
    requires forall k :: 0 <= k < |more| ==> more[k].positionInItemProvider == |items| + k
    ensures Indexed(items) ==> Indexed(items + more)
  {
    if Indexed(items) {
      forall i | 0 <= i < |items + more| ensures (items + more)[i].positionInItemProvider == i {
        if i >= |items| {
          assert (items + more)[i] == more[i - |items|];
        }
      }
    }
  }

  /** `background()`: a header strip across the top and a time-column strip
      down the left, each open (`Int.MAX_VALUE`) along its long side. */
  function Background(cfg: Config, s: ScopeState): (s': ScopeState)
    ensures |s'.items| == |s.items| + 2 && s'.items[..|s.items|] == s.items
    ensures s'.columnHeaderBackground == Some(s'.items[|s.items|])
    ensures s'.timeColumnBackground == Some(s'.items[|s.items| + 1])
    ensures var b := s'.items[|s.items|];
            && b.ColumnHeaderBackground? && b.x == 0 && b.y == 0
            && b.Height() == cfg.timetableViewPortTop && b.Width() == IntMaxValue
            && b.content == HeaderBackgroundFill
    ensures var b := s'.items[|s.items| + 1];
            && b.TimeColumnBackground? && b.x == 0 && b.y == cfg.timetableViewPortTop
            && b.Width() == cfg.TimetableViewPortLeft() && b.Height() == IntMaxValue
            && b.content == TimeColumnBackgroundFill
    ensures Indexed(s.items) ==> Indexed(s'.items)
    ensures s'.columns == s.columns && s'.columnHeaders == s.columnHeaders && s'.timeLabels == s.timeLabels
  {
    var header := ColumnHeaderBackground(|s.items|, cfg.timetableViewPortTop, 0, 0, HeaderBackgroundFill);
    var timeColumn := TimeColumnBackground(|s.items| + 1, cfg.TimetableViewPortLeft(), 0,
                                           cfg.timetableViewPortTop, TimeColumnBackgroundFill);
    s.(items := s.items + [header, timeColumn],
       columnHeaderBackground := Some(header),
       timeColumnBackground := Some(timeColumn))
  }
}
