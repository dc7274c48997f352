/** The builder and the three measurement passes together: what the
    geometry `Scope.Build` lays out guarantees about the passes that read it.
    The culling passes are exact only on ordered input; these lemmas show the
    builder produces such input whenever durations, per-minute height and
    spacings are non-negative. */
module Timetable {
  import opened Kotlin
  import opened Geometry
  import opened Scope
  import opened Layout
  import opened TimetableState
  import TimetablePolicy
  import ColumnHeaderPolicy
  import TimeColumnPolicy

  /** The sizes that must not be negative for periods to stack downwards. */
  predicate Stacking(cfg: Config) {
    cfg.heightPerMinutePx >= 0 && cfg.verticalSpacingPx >= 0
  }

  predicate NonNegativeDurations(entries: seq<Entry>) {
    forall k :: 0 <= k < |entries| ==> entries[k].durationSec >= 0
  }

  predicate AllNonNegative(specs: seq<ColumnSpec>) {
    forall c :: 0 <= c < |specs| ==> NonNegativeDurations(specs[c].entries)
  }

  /** Total duration of a run of entries. */
  function TotalDuration(entries: seq<Entry>): int {
    if entries == [] then 0 else TotalDuration(entries[..|entries| - 1]) + entries[|entries| - 1].durationSec
  }

  /** Total height of the periods built for a run of entries. */
  function TotalHeight(cfg: Config, entries: seq<Entry>): int {
    if entries == [] then 0
    else TotalHeight(cfg, entries[..|entries| - 1]) + Div(entries[|entries| - 1].durationSec, 60) * cfg.heightPerMinutePx
  }

  // ---------------------------------------------------------------------
  // One column

  /** Closed form of the chaining: a period starts when all earlier ones in
      its column have run, and sits below all of them plus one spacing each. */
  lemma {:induction false} ColumnClosedForm(cfg: Config, n: int, entries: seq<Entry>, col: seq<Period>, k: int)
    requires ColumnLayout(cfg, n, entries, col) && 0 <= k < |col|
    ensures col[k].startAtSec == cfg.baseEpochSec + TotalDuration(entries[..k])
    ensures col[k].endAtSec == cfg.baseEpochSec + TotalDuration(entries[..k + 1])
    ensures col[k].y == cfg.timetableViewPortTop + (k + 1) * cfg.verticalSpacingPx + TotalHeight(cfg, entries[..k])
  {
    var e := entries[k];
    assert PeriodOf(cfg, n, col, k, e);
    PrefixStep(cfg, entries, k);
    if k == 0 {
      assert entries[..0] == [];
    } else {
      ColumnClosedForm(cfg, n, entries, col, k - 1);
      var prev := col[k - 1];
      assert PeriodOf(cfg, n, col, k - 1, entries[k - 1]);
      PrefixStep(cfg, entries, k - 1);
      var v := cfg.verticalSpacingPx;
      var th := TotalHeight(cfg, entries[..k - 1]);
      assert prev.y == cfg.timetableViewPortTop + k * v + th;
      assert prev.Bottom() == prev.y + Div(entries[k - 1].durationSec, 60) * cfg.heightPerMinutePx;
      assert (k + 1) * v == k * v + v;
    }
  }

  /** One more entry adds its duration and its height to the prefix totals. */
  lemma PrefixStep(cfg: Config, entries: seq<Entry>, k: int)
    requires 0 <= k < |entries|
    ensures TotalDuration(entries[..k + 1]) == TotalDuration(entries[..k]) + entries[k].durationSec
    ensures TotalHeight(cfg, entries[..k + 1]) == TotalHeight(cfg, entries[..k]) + Div(entries[k].durationSec, 60) * cfg.heightPerMinutePx
  {
    assert entries[..k + 1][..k] == entries[..k];
  }

  lemma PeriodHeightNonNegative(cfg: Config, d: int)
    requires cfg.heightPerMinutePx >= 0 && d >= 0
    ensures Div(d, 60) * cfg.heightPerMinutePx >= 0
  {
    MulMonotone(0, Div(d, 60), cfg.heightPerMinutePx);
  }

  /** Periods stack: each one starts, one spacing or more, below the bottom
      of every earlier period in its column. */
  lemma {:induction false} Stacked(cfg: Config, n: int, entries: seq<Entry>, col: seq<Period>, i: int, j: int)
    requires ColumnLayout(cfg, n, entries, col) && Stacking(cfg) && NonNegativeDurations(entries)
    requires 0 <= i < j < |col|
    decreases j - i
    ensures col[i].Bottom() + cfg.verticalSpacingPx <= col[j].y
  {
    assert PeriodOf(cfg, n, col, j, entries[j]);
    if i < j - 1 {
      Stacked(cfg, n, entries, col, i, j - 1);
      assert PeriodOf(cfg, n, col, j - 1, entries[j - 1]);
      PeriodHeightNonNegative(cfg, entries[j - 1].durationSec);
    }
  }

  /** A built column is in the order the grid pass relies on. */
  lemma ColumnIsOrdered(cfg: Config, n: int, entries: seq<Entry>, col: seq<Period>)
    requires ColumnLayout(cfg, n, entries, col) && Stacking(cfg) && NonNegativeDurations(entries)
    ensures TimetablePolicy.ColumnOrdered(col)
  {
    forall i, j | 0 <= i < j < |col|
      ensures col[i].x == col[j].x && col[i].width == col[j].width && col[i].y <= col[j].y
    {
      assert PeriodOf(cfg, n, col, i, entries[i]) && PeriodOf(cfg, n, col, j, entries[j]);
      Stacked(cfg, n, entries, col, i, j);
      PeriodHeightNonNegative(cfg, entries[i].durationSec);
    }
  }

  // ---------------------------------------------------------------------
  // Across columns

  /** Columns are `columnWidth + horizontalSpacing` apart, so with
      non-negative sizes a later column starts at or after the end of an
      earlier one plus the spacing: columns never overlap. */
  lemma ColumnsApart(cfg: Config, c: int, d: int)
    requires 0 <= c < d && cfg.columnWidthPx >= 0 && cfg.horizontalSpacingPx >= 0
    ensures ColumnLeft(cfg, c) + cfg.columnWidthPx + cfg.horizontalSpacingPx <= ColumnLeft(cfg, d)
    ensures ColumnLeft(cfg, d) - ColumnLeft(cfg, c) == (d - c) * (cfg.columnWidthPx + cfg.horizontalSpacingPx)
  {
    var step := cfg.columnWidthPx + cfg.horizontalSpacingPx;
    assert ColumnLeft(cfg, d) - ColumnLeft(cfg, c) == (d - c) * step by {
      assert cfg.columnWidthPx * d - cfg.columnWidthPx * c == cfg.columnWidthPx * (d - c);
      assert cfg.horizontalSpacingPx * d - cfg.horizontalSpacingPx * c == cfg.horizontalSpacingPx * (d - c);
    }
    MulMonotone(1, d - c, step);
  }

  /** Column left edges never decrease with the column number while a
      column plus its spacing has non-negative width. */
  lemma ColumnLeftMonotone(cfg: Config, c: int, d: int)
    requires c <= d && cfg.columnWidthPx + cfg.horizontalSpacingPx >= 0
    ensures ColumnLeft(cfg, c) <= ColumnLeft(cfg, d)
  {
    assert cfg.columnWidthPx * d - cfg.columnWidthPx * c == cfg.columnWidthPx * (d - c);
    assert cfg.horizontalSpacingPx * d - cfg.horizontalSpacingPx * c == cfg.horizontalSpacingPx * (d - c);
    MulMonotone(0, d - c, cfg.columnWidthPx + cfg.horizontalSpacingPx);
  }

  /** Every column is the one the builder lays out for its spec. */
  predicate Built(cfg: Config, specs: seq<ColumnSpec>, columns: seq<seq<Period>>) {
    && |columns| == |specs|
    && forall c :: 0 <= c < |specs| ==> ColumnLayout(cfg, c, specs[c].entries, columns[c])
  }

  /** Every header is the one the builder makes for its spec. */
  predicate Headed(cfg: Config, specs: seq<ColumnSpec>, headers: seq<ColumnHeader>) {
    && |headers| == |specs|
    && forall c :: 0 <= c < |specs| ==> HeaderAt(cfg, c, headers[c], specs[c].header)
  }

  /** `Build` lays out every column and header as `Built` and `Headed`
      describe, with no labels yet. */
  lemma BuildIsBuilt(cfg: Config, specs: seq<ColumnSpec>)
    ensures Built(cfg, specs, Build(cfg, specs).columns)
    ensures Headed(cfg, specs, Build(cfg, specs).columnHeaders)
    ensures Build(cfg, specs).timeLabels == []
  {
  }

  /** Built columns are in the order the grid pass relies on, and numbered. */
  lemma BuiltColumnsOrdered(cfg: Config, specs: seq<ColumnSpec>, columns: seq<seq<Period>>)
    requires Built(cfg, specs, columns) && Stacking(cfg) && AllNonNegative(specs)
    ensures TimetablePolicy.AllOrdered(columns)
    ensures TimetablePolicy.Numbered(columns)
  {
    forall c | 0 <= c < |columns| ensures TimetablePolicy.ColumnOrdered(columns[c]) {
      ColumnIsOrdered(cfg, c, specs[c].entries, columns[c]);
    }
    forall c, k | 0 <= c < |columns| && 0 <= k < |columns[c]| ensures columns[c][k].columnNumber == c {
      assert PeriodOf(cfg, c, columns[c], k, specs[c].entries[k]);
    }
  }

  /** Built headers run left to right, as the header pass relies on. */
  lemma BuiltHeadersOrdered(cfg: Config, specs: seq<ColumnSpec>, headers: seq<ColumnHeader>)
    requires Headed(cfg, specs, headers) && cfg.columnWidthPx + cfg.horizontalSpacingPx >= 0
    ensures ColumnHeaderPolicy.HeadersOrdered(headers)
  {
    forall a, b | 0 <= a < b < |headers| ensures headers[a].x <= headers[b].x {
      assert HeaderAt(cfg, a, headers[a], specs[a].header);
      assert HeaderAt(cfg, b, headers[b], specs[b].header);
      ColumnLeftMonotone(cfg, a, b);
    }
  }

  /** The builder's output meets every precondition of the grid and header
      passes' completeness: ordered, correctly numbered columns and headers
      left to right. */
  lemma BuildIsOrdered(cfg: Config, specs: seq<ColumnSpec>)
    requires Stacking(cfg) && AllNonNegative(specs)
    requires cfg.columnWidthPx + cfg.horizontalSpacingPx >= 0
    ensures TimetablePolicy.AllOrdered(Build(cfg, specs).columns)
    ensures TimetablePolicy.Numbered(Build(cfg, specs).columns)
    ensures ColumnHeaderPolicy.HeadersOrdered(Build(cfg, specs).columnHeaders)
  {
    BuildIsBuilt(cfg, specs);
    BuiltColumnsOrdered(cfg, specs, Build(cfg, specs).columns);
    BuiltHeadersOrdered(cfg, specs, Build(cfg, specs).columnHeaders);
  }

  // ---------------------------------------------------------------------
  // Passes over a built timetable

  /** The first pass after construction (hints at -1, so the scan starts at
      column 0) places exactly the on-screen periods of the built columns. */
  lemma FirstPassExact(cfg: Config, specs: seq<ColumnSpec>, columns: seq<seq<Period>>,
                       maxWidth: int, maxHeight: int, paddingRight: int, paddingBottom: int)
    requires Built(cfg, specs, columns) && specs != [] && Stacking(cfg) && AllNonNegative(specs)
    ensures var vp := TimetablePolicy.ViewportOf(Fresh(), maxWidth, maxHeight);
            var r := TimetablePolicy.Measure(Fresh(), columns, maxWidth, maxHeight, paddingRight, paddingBottom);
            && r.Measured?
            && r.layout.placements == TimetablePolicy.VisibleFrom(columns, 0, vp)
            && forall c, k :: 0 <= c < |columns| && 0 <= k < |columns[c]| && TimetablePolicy.OnScreen(columns[c][k], vp)
                 ==> TimetablePolicy.Place(columns[c][k], vp) in r.layout.placements
  {
    BuiltColumnsOrdered(cfg, specs, columns);
    TimetablePolicy.MeasureExact(Fresh(), columns, maxWidth, maxHeight, paddingRight, paddingBottom);
  }

  /** The horizontal scroll bound of built columns: scrolled fully left, the
      right edge of the last column sits the right padding inside the viewport. */
  lemma BuiltHorizontalMin(cfg: Config, specs: seq<ColumnSpec>, columns: seq<seq<Period>>,
                           maxWidth: int, paddingRight: int)
    requires Built(cfg, specs, columns) && specs != [] && specs[|specs| - 1].entries != []
    ensures TimetablePolicy.HorizontalMin(columns, maxWidth, paddingRight)
            == maxWidth - (ColumnLeft(cfg, |specs| - 1) + cfg.columnWidthPx) - paddingRight
  {
    assert PeriodOf(cfg, |specs| - 1, columns[|specs| - 1], 0, specs[|specs| - 1].entries[0]);
  }

  /** Every built header is shown exactly when it is on screen. */
  lemma BuiltHeadersExact(cfg: Config, specs: seq<ColumnSpec>, headers: seq<ColumnHeader>,
                          s: State, strip: ColumnHeaderPolicy.Strip, a: int)
    requires Headed(cfg, specs, headers) && cfg.columnWidthPx + cfg.horizontalSpacingPx >= 0
    requires 0 <= a < |specs|
    ensures var r := ColumnHeaderPolicy.MeasureHeaders(s, headers, strip);
            ColumnHeaderPolicy.HeaderOnScreen(headers[a], strip, s.scrollXOffset) <==>
              r.Some? && ColumnHeaderPolicy.PlaceHeader(headers[a], a, strip, s.scrollXOffset) in r.value.placements
  {
    BuiltHeadersOrdered(cfg, specs, headers);
    ColumnHeaderPolicy.HeadersExact(s, headers, strip, a);
  }

  /** Header and grid are placed by different passes: the header pass adds the
      left padding and the time column width to a header x that already
      contains both, so with the same padding and time column width a header
      lands that far to the right of its column's periods. */
  lemma HeaderOffsetFromColumn(cfg: Config, specs: seq<ColumnSpec>, columns: seq<seq<Period>>,
                               headers: seq<ColumnHeader>, s: State, maxWidth: int, maxHeight: int, c: int, k: int)
    requires Built(cfg, specs, columns) && Headed(cfg, specs, headers)
    requires 0 <= c < |specs| && 0 <= k < |specs[c].entries|
    ensures var strip := ColumnHeaderPolicy.Strip(cfg.timeColumnWidthPx, cfg.paddingTopPx, cfg.paddingLeftPx, maxWidth);
            ColumnHeaderPolicy.PlaceHeader(headers[c], c, strip, s.scrollXOffset).x
              == TimetablePolicy.Place(columns[c][k], TimetablePolicy.ViewportOf(s, maxWidth, maxHeight)).x
                 + cfg.TimetableViewPortLeft()
  {
    assert PeriodOf(cfg, c, columns[c], k, specs[c].entries[k]);
    assert HeaderAt(cfg, c, headers[c], specs[c].header);
  }

  // ---------------------------------------------------------------------
  // Time labels of a built timetable

  lemma HourInMinutes(k: int)
    requires k >= 0
    ensures Div(3600 * k, 60) == 60 * k
  {
  }

  lemma {:induction false} TotalDurationNonNegative(entries: seq<Entry>)
    requires NonNegativeDurations(entries)
    ensures TotalDuration(entries) >= 0
  {
    if entries != [] {
      TotalDurationNonNegative(entries[..|entries| - 1]);
    }
  }

  /** The minimum start of a list is a value every start reaches and one attains. */
  lemma EarliestStartIs(ps: seq<Period>, t: int, j: int)
    requires 0 <= j < |ps| && ps[j].startAtSec == t
    requires forall i :: 0 <= i < |ps| ==> t <= ps[i].startAtSec
    ensures TimeRange(ps).Some? && TimeRange(ps).value.0 == t
  {
    var i :| 0 <= i < |ps| && ps[i].startAtSec == TimeRange(ps).value.0;
  }

  /** With non-negative durations, the earliest period of a built timetable
      starts at the base epoch. */
  lemma EarliestStartIsBase(cfg: Config, specs: seq<ColumnSpec>, columns: seq<seq<Period>>)
    requires Built(cfg, specs, columns) && AllNonNegative(specs)
    requires Flatten(columns) != []
    ensures TimeRange(Flatten(columns)).value.0 == cfg.baseEpochSec
  {
    var ps := Flatten(columns);
    forall i | 0 <= i < |ps| ensures cfg.baseEpochSec <= ps[i].startAtSec {
      assert ps[i] in ps;
      var c :| 0 <= c < |columns| && ps[i] in columns[c];
      var k :| 0 <= k < |columns[c]| && columns[c][k] == ps[i];
      ColumnClosedForm(cfg, c, specs[c].entries, columns[c], k);
      TotalDurationNonNegative(specs[c].entries[..k]);
    }
    assert ps[0] in ps;
    var c :| 0 <= c < |columns| && ps[0] in columns[c];
    assert PeriodOf(cfg, c, columns[c], 0, specs[c].entries[0]);
    assert columns[c][0] in ps;
    var j :| 0 <= j < |ps| && ps[j] == columns[c][0];
    EarliestStartIs(ps, cfg.baseEpochSec, j);
  }

  /** The y of the k-th hour label from the base epoch: k hours' height
      below the viewport top. */
  lemma HourLabelY(cfg: Config, labels: seq<TimeLabel>, end: int, k: int)
    requires HourLabels(cfg, labels, cfg.baseEpochSec, end) && 0 <= k < |labels|
    ensures labels[k].y == cfg.timetableViewPortTop + 60 * k * cfg.heightPerMinutePx
  {
    assert LabelAt(cfg, labels[k], cfg.baseEpochSec + 3600 * k);
    HourInMinutes(k);
  }

  /** Hour labels from the base epoch start at the viewport top with the base
      epoch's text, and each sits an hour's height below the previous one. */
  lemma LabelsFromBase(cfg: Config, labels: seq<TimeLabel>, end: int)
    requires HourLabels(cfg, labels, cfg.baseEpochSec, end)
    ensures labels[0].content == LabelText(cfg.baseEpochSec) && labels[0].y == cfg.timetableViewPortTop
    ensures forall k :: 1 <= k < |labels| ==> labels[k].y == labels[k - 1].y + 60 * cfg.heightPerMinutePx
  {
    HourLabelY(cfg, labels, end, 0);
    forall k | 1 <= k < |labels| ensures labels[k].y == labels[k - 1].y + 60 * cfg.heightPerMinutePx {
      HourLabelY(cfg, labels, end, k);
      HourLabelY(cfg, labels, end, k - 1);
      assert 60 * k * cfg.heightPerMinutePx == 60 * (k - 1) * cfg.heightPerMinutePx + 60 * cfg.heightPerMinutePx;
    }
  }

  /** With a non-negative per-minute height, hour labels from the base epoch
      are in the order the time-column pass relies on. */
  lemma HourLabelsOrdered(cfg: Config, labels: seq<TimeLabel>, end: int)
    requires HourLabels(cfg, labels, cfg.baseEpochSec, end) && cfg.heightPerMinutePx >= 0
    ensures TimeColumnPolicy.LabelsOrdered(labels)
  {
    forall a, b | 0 <= a < b < |labels| ensures labels[a].y <= labels[b].y {
      HourLabelY(cfg, labels, end, a);
      HourLabelY(cfg, labels, end, b);
      MulMonotone(60 * a, 60 * b, cfg.heightPerMinutePx);
    }
  }

  /** The time labels added to a built timetable with at least one period
      are the hour labels from the base epoch to the latest period end. */
  lemma BuiltLabels(cfg: Config, specs: seq<ColumnSpec>, s: ScopeState)
    requires Built(cfg, specs, s.columns) && s.timeLabels == []
    requires AllNonNegative(specs)
    requires Flatten(s.columns) != []
    ensures AddTimeLabels(cfg, s).Some?
    ensures HourLabels(cfg, AddTimeLabels(cfg, s).value.timeLabels, cfg.baseEpochSec,
                       TimeRange(Flatten(s.columns)).value.1)
  {
    EarliestStartIsBase(cfg, specs, s.columns);
    AddedLabels(cfg, s);
  }

  /** On a scope without labels, the added labels are the hour labels over
      the periods' time range. */
  lemma AddedLabels(cfg: Config, s: ScopeState)
    requires Flatten(s.columns) != [] && s.timeLabels == []
    ensures AddTimeLabels(cfg, s).Some?
    ensures var range := TimeRange(Flatten(s.columns)).value;
            HourLabels(cfg, AddTimeLabels(cfg, s).value.timeLabels, range.0, range.1)
  {
    var r := AddTimeLabels(cfg, s).value;
    assert r.timeLabels[|s.timeLabels|..] == r.timeLabels;
  }

  /** A column with an hour and a half-hour slot, at two pixels per minute and
      no spacing: periods 120 and 60 pixels tall, stacked at 0 and 120,
      running 0 to 3600 and 3600 to 5400. */
  lemma TwoSlotColumn(col: seq<Period>)
    requires ColumnLayout(Config(100, 2, 50, 40, 0, 0, 0, 0, 0, 0), 0,
                          [Entry(3600, Slot(0)), Entry(1800, Slot(1))], col)
    ensures |col| == 2
    ensures col[0].height == 120 && col[0].y == 0 && col[0].startAtSec == 0 && col[0].endAtSec == 3600
    ensures col[1].height == 60 && col[1].y == 120 && col[1].startAtSec == 3600 && col[1].endAtSec == 5400
  {
    var cfg := Config(100, 2, 50, 40, 0, 0, 0, 0, 0, 0);
    var entries := [Entry(3600, Slot(0)), Entry(1800, Slot(1))];
    assert Div(3600, 60) == 60 && Div(1800, 60) == 30;
    assert PeriodOf(cfg, 0, col, 0, entries[0]);
    assert PeriodOf(cfg, 0, col, 1, entries[1]);
  }

  /** The last of at least two hour labels is still before the end. */
  lemma LastLabelBeforeEnd(cfg: Config, labels: seq<TimeLabel>, start: int, end: int)
    requires HourLabels(cfg, labels, start, end)
    ensures |labels| >= 2 ==> start + 3600 * (|labels| - 1) < end
  {
    var k := |labels| - 1;
    assert LabelAt(cfg, labels[k], start + 3600 * k) && (k >= 1 ==> start + 3600 * k < end);
  }

  /** Between 0:00 and 1:30 there are exactly two hour labels, 0:00 and 1:00. */
  lemma TwoHourLabels(cfg: Config, labels: seq<TimeLabel>)
    requires HourLabels(cfg, labels, 0, 5400)
    ensures |labels| == 2
    ensures labels[0].content == LabelText(0) && labels[1].content == LabelText(3600)
  {
    LastLabelBeforeEnd(cfg, labels, 0, 5400);
    assert LabelAt(cfg, labels[1], 3600);
  }
}
