/** The cell grid's measurement pass (`lazyTimetableMeasurementPolicy` in
    LazyTimetableMeasurementPolicy.kt): starting one column before the
    remembered first visible column, scan every later column's periods,
    measure and place the on-screen ones, then record the new visible-column
    hints and the scroll minimums in the state. */
module TimetablePolicy {
  import opened Kotlin
  import opened Geometry
  import opened Layout
  import opened TimetableState

  /** The current scroll offsets and the incoming constraints' maxima. */
  datatype Viewport = Viewport(scrollX: int, scrollY: int, maxWidth: int, maxHeight: int)

  function ViewportOf(s: State, maxWidth: int, maxHeight: int): Viewport {
    Viewport(s.scrollXOffset, s.scrollYOffset, maxWidth, maxHeight)
  }

  /** A period's on-screen rectangle meets the viewport (edges touching count). */
  predicate OnScreen(p: Period, vp: Viewport) {
    var x := p.x + vp.scrollX;
    var y := p.y + vp.scrollY;
    && x + p.width >= 0
    && x <= vp.maxWidth
    && y + p.height >= 0
    && y <= vp.maxHeight
  }

  /** The same test, read off an emitted item's placement and constraints. */
  predicate PlacedOnScreen(v: VisibleItem, vp: Viewport) {
    && v.x + v.constraints.maxWidth >= 0
    && v.x <= vp.maxWidth
    && v.y + v.constraints.maxHeight >= 0
    && v.y <= vp.maxHeight
  }

  /** Measuring and placing a period: exact size, shifted by the scroll, z = 0. */
  function Place(p: Period, vp: Viewport): (v: VisibleItem)
    ensures OnScreen(p, vp) <==> PlacedOnScreen(v, vp)
    ensures v.columnNumber == Some(p.columnNumber) && v.index == p.positionInItemProvider && v.z == 0
    ensures v.x == p.x + vp.scrollX && v.y == p.y + vp.scrollY && v.constraints == Exact(p.width, p.height)
  {
    VisibleItem(p.x + vp.scrollX, p.y + vp.scrollY, 0, Some(p.columnNumber),
                p.positionInItemProvider, Exact(p.width, p.height))
  }

  /** `r` is the placements of on-screen periods of `col` taken at strictly
      increasing positions: each period at most once, in column order. */
  predicate PlacedSubsequence(r: seq<VisibleItem>, col: seq<Period>, vp: Viewport)
    decreases |col|
  {
    if r == [] then true
    else if col == [] then false
    else (OnScreen(col[0], vp) && r[0] == Place(col[0], vp) && PlacedSubsequence(r[1..], col[1..], vp))
         || PlacedSubsequence(r, col[1..], vp)
  }

  /** The inner loop over one column. A `break` inside the `when` ends only
      this column's loop; the one `continue` skips a period above the top. */
  function ScanColumn(col: seq<Period>, vp: Viewport): (r: seq<VisibleItem>)
    ensures PlacedSubsequence(r, col, vp)
    ensures |r| <= |col|
    ensures forall v :: v in r ==> PlacedOnScreen(v, vp) && v.z == 0 && v.columnNumber.Some?
    ensures forall v :: v in r ==> exists p :: p in col && OnScreen(p, vp) && v == Place(p, vp)
  {
    if col == [] then []
    else
      var p := col[0];
      var x := p.x + vp.scrollX;
      var y := p.y + vp.scrollY;
      if x + p.width < 0 then []
      else if x > vp.maxWidth then []
      else if y + p.height < 0 then ScanColumn(col[1..], vp)
      else if y > vp.maxHeight then []
      else [Place(p, vp)] + ScanColumn(col[1..], vp)
  }

  /** Reference definition: every on-screen period of a column, in order. */
  function VisiblePeriods(col: seq<Period>, vp: Viewport): seq<VisibleItem> {
    if col == [] then []
    else (if OnScreen(col[0], vp) then [Place(col[0], vp)] else []) + VisiblePeriods(col[1..], vp)
  }

  /** The outer loop: columns `c` until the column count, in order. */
  function ScanColumns(columns: seq<seq<Period>>, c: nat, vp: Viewport): (r: seq<VisibleItem>)
    decreases |columns| - c
    ensures forall v :: v in r ==> PlacedOnScreen(v, vp) && v.z == 0 && v.columnNumber.Some?
    ensures forall v :: v in r ==>
              exists d, k :: c <= d < |columns| && 0 <= k < |columns[d]|
                             && OnScreen(columns[d][k], vp) && v == Place(columns[d][k], vp)
  {
    if c >= |columns| then []
    else
      var here := ScanColumn(columns[c], vp);
      var rest := ScanColumns(columns, c + 1, vp);
      assert forall v :: v in here ==>
               exists k :: 0 <= k < |columns[c]| && OnScreen(columns[c][k], vp) && v == Place(columns[c][k], vp) by {
        forall v | v in here
          ensures exists k :: 0 <= k < |columns[c]| && OnScreen(columns[c][k], vp) && v == Place(columns[c][k], vp)
        {
          var p :| p in columns[c] && OnScreen(p, vp) && v == Place(p, vp);
          var k :| 0 <= k < |columns[c]| && columns[c][k] == p;
        }
      }
      here + rest
  }

  /** Reference definition: every on-screen period of the columns from `c` on. */
  function VisibleFrom(columns: seq<seq<Period>>, c: nat, vp: Viewport): seq<VisibleItem>
    decreases |columns| - c
  {
    if c >= |columns| then [] else VisiblePeriods(columns[c], vp) + VisibleFrom(columns, c + 1, vp)
  }

  /** Where the scan starts: one column before the hint, never below 0. */
  function ScanStart(s: State): (c: nat)
    ensures c == 0 || c == s.firstVisibleColumnNumber - 1
    ensures s.firstVisibleColumnNumber <= 1 <==> c == 0
  {
    CoerceAtLeast(s.firstVisibleColumnNumber - 1, 0)
  }

  /** `scrollHorizontalMin`: taken from the last column's first period, 0 when
      there are no columns or the last column is empty. */
  function HorizontalMin(columns: seq<seq<Period>>, maxWidth: int, paddingRight: int): (m: int)
    ensures columns == [] || columns[|columns| - 1] == [] ==> m == 0
    ensures columns != [] && columns[|columns| - 1] != [] ==>
              m + columns[|columns| - 1][0].Right() + paddingRight == maxWidth
  {
    if columns == [] || columns[|columns| - 1] == [] then 0
    else
      var p := columns[|columns| - 1][0];
      maxWidth - (p.x + p.width) - paddingRight
  }

  /** Bottom of each column: its last period's bottom, 0 for an empty column. */
  function ColumnBottoms(columns: seq<seq<Period>>): (bs: seq<int>)
    ensures |bs| == |columns|
    ensures forall c :: 0 <= c < |columns| ==>
              bs[c] == (if columns[c] == [] then 0 else columns[c][|columns[c]| - 1].Bottom())
  {
    seq(|columns|, c requires 0 <= c < |columns| =>
      if columns[c] == [] then 0 else columns[c][|columns[c]| - 1].Bottom())
  }

  /** `scrollVerticalMin`: scrolled that far, the deepest column's bottom sits
      exactly the bottom padding above the viewport's bottom edge, and no
      column reaches further. `None` without columns, where `maxOf` throws. */
  function VerticalMin(columns: seq<seq<Period>>, maxHeight: int, paddingBottom: int): (m: Option<int>)
    ensures m.None? <==> columns == []
    ensures m.Some? ==> forall c :: 0 <= c < |columns| ==> ColumnBottoms(columns)[c] + m.value + paddingBottom <= maxHeight
    ensures m.Some? ==> exists c :: 0 <= c < |columns| && ColumnBottoms(columns)[c] + m.value + paddingBottom == maxHeight
  {
    if columns == [] then None
    else
      var bs := ColumnBottoms(columns);
      var deepest := MaxOf(bs);
      var c :| 0 <= c < |bs| && bs[c] == deepest;
      Some(maxHeight - deepest - paddingBottom)
  }

  /** The outcome of a pass: a layout and the updated state, or — with no
      columns, where `maxOf` throws — the state as updated before the throw. */
  datatype Outcome =
    | Measured(state: State, layout: Layout)
    | Threw(state: State)

  /** One measurement pass. */
  function Measure(s: State, columns: seq<seq<Period>>, maxWidth: int, maxHeight: int,
                   paddingRight: int, paddingBottom: int): (r: Outcome)
    ensures r.Threw? <==> columns == []
    ensures r.state.scrollXOffset == s.scrollXOffset && r.state.scrollYOffset == s.scrollYOffset
    ensures r.Measured? ==> r.layout.width == maxWidth && r.layout.height == maxHeight
    ensures r.Measured? ==> forall v :: v in r.layout.placements ==>
              PlacedOnScreen(v, ViewportOf(s, maxWidth, maxHeight)) && v.z == 0
    ensures r.Measured? ==> forall v :: v in r.layout.placements ==>
              exists d, k :: ScanStart(s) <= d < |columns| && 0 <= k < |columns[d]|
                             && OnScreen(columns[d][k], ViewportOf(s, maxWidth, maxHeight))
                             && v == Place(columns[d][k], ViewportOf(s, maxWidth, maxHeight))
    ensures r.Measured? ==>
              && (r.layout.placements == [] ==> r.state.firstVisibleColumnNumber == -1 == r.state.lastVisibleColumnNumber)
              && (r.layout.placements != [] ==>
                    && Some(r.state.firstVisibleColumnNumber) == r.layout.placements[0].columnNumber
                    && Some(r.state.lastVisibleColumnNumber) == r.layout.placements[|r.layout.placements| - 1].columnNumber)
    ensures r.state.scrollHorizontalMin == HorizontalMin(columns, maxWidth, paddingRight)
    ensures r.Measured? ==> Some(r.state.scrollVerticalMin) == VerticalMin(columns, maxHeight, paddingBottom)
    ensures r.Threw? ==> r.state.scrollVerticalMin == s.scrollVerticalMin
    ensures r.Threw? ==> r.state.firstVisibleColumnNumber == -1 == r.state.lastVisibleColumnNumber
  {
    var vp := ViewportOf(s, maxWidth, maxHeight);
    var visible := ScanColumns(columns, ScanStart(s), vp);
    var hinted := s.(firstVisibleColumnNumber := ColumnNumberOr(FirstOrNull(visible)),
                     lastVisibleColumnNumber := ColumnNumberOr(LastOrNull(visible)),
                     scrollHorizontalMin := HorizontalMin(columns, maxWidth, paddingRight));
    var verticalMin := VerticalMin(columns, maxHeight, paddingBottom);
    if verticalMin.None? then Threw(hinted)
    else Measured(hinted.(scrollVerticalMin := verticalMin.value), Layout(maxWidth, maxHeight, visible))
  }

  // ---------------------------------------------------------------------
  // Soundness and completeness of the culling

  /** Within a column all periods share x and width and their y never
      decreases: the order the builder lays periods out in. */
  predicate ColumnOrdered(col: seq<Period>) {
    forall i, j :: 0 <= i < j < |col| ==>
      col[i].x == col[j].x && col[i].width == col[j].width && col[i].y <= col[j].y
  }

  predicate AllOrdered(columns: seq<seq<Period>>) {
    forall c :: 0 <= c < |columns| ==> ColumnOrdered(columns[c])
  }

  /** Each period records the column it sits in. */
  predicate Numbered(columns: seq<seq<Period>>) {
    forall c, k :: 0 <= c < |columns| && 0 <= k < |columns[c]| ==> columns[c][k].columnNumber == c
  }

  lemma {:induction false} NoneVisible(col: seq<Period>, vp: Viewport)
    requires forall k :: 0 <= k < |col| ==> !OnScreen(col[k], vp)
    ensures VisiblePeriods(col, vp) == []
  {
    if col != [] {
      NoneVisible(col[1..], vp);
    }
  }

  /** In an ordered column, every `break` is justified: the scan emits
      exactly the on-screen periods, in order. */
  lemma {:induction false} ScanColumnExact(col: seq<Period>, vp: Viewport)
    requires ColumnOrdered(col)
    ensures ScanColumn(col, vp) == VisiblePeriods(col, vp)
  {
    if col != [] {
      var p := col[0];
      var x := p.x + vp.scrollX;
      var y := p.y + vp.scrollY;
      assert ColumnOrdered(col[1..]);
      if x + p.width < 0 || x > vp.maxWidth || (y + p.height >= 0 && y > vp.maxHeight) {
        assert forall k :: 0 <= k < |col| ==> !OnScreen(col[k], vp) by {
          forall k | 0 < k < |col| ensures !OnScreen(col[k], vp) {
            assert col[0].x == col[k].x && col[0].width == col[k].width && col[0].y <= col[k].y;
          }
        }
        NoneVisible(col, vp);
        NoneVisible(col[1..], vp);
      } else {
        ScanColumnExact(col[1..], vp);
      }
    }
  }

  lemma {:induction false} ScanColumnsExact(columns: seq<seq<Period>>, c: nat, vp: Viewport)
    requires AllOrdered(columns)
    decreases |columns| - c
    ensures ScanColumns(columns, c, vp) == VisibleFrom(columns, c, vp)
  {
    if c < |columns| {
      ScanColumnExact(columns[c], vp);
      ScanColumnsExact(columns, c + 1, vp);
    }
  }

  lemma {:induction false} VisiblePeriodsContains(col: seq<Period>, vp: Viewport, k: int)
    requires 0 <= k < |col| && OnScreen(col[k], vp)
    ensures Place(col[k], vp) in VisiblePeriods(col, vp)
  {
    if k > 0 {
      VisiblePeriodsContains(col[1..], vp, k - 1);
    }
  }

  lemma {:induction false} VisibleFromContains(columns: seq<seq<Period>>, c: nat, vp: Viewport, d: int, k: int)
    requires c <= d < |columns| && 0 <= k < |columns[d]| && OnScreen(columns[d][k], vp)
    decreases d - c
    ensures Place(columns[d][k], vp) in VisibleFrom(columns, c, vp)
  {
    if d == c {
      VisiblePeriodsContains(columns[d], vp, k);
    } else {
      VisibleFromContains(columns, c + 1, vp, d, k);
    }
  }

  /** The hint is safe when no column before the scan start shows anything. */
  predicate HintSafe(columns: seq<seq<Period>>, start: int, vp: Viewport) {
    forall d, k :: 0 <= d < start && d < |columns| && 0 <= k < |columns[d]| ==> !OnScreen(columns[d][k], vp)
  }

  /** Skipping columns that show nothing skips nothing. */
  lemma {:induction false} SkipInvisibleColumns(columns: seq<seq<Period>>, a: nat, b: nat, vp: Viewport)
    requires a <= b
    requires HintSafe(columns, b, vp)
    decreases b - a
    ensures VisibleFrom(columns, a, vp) == VisibleFrom(columns, b, vp)
  {
    if a < b {
      if a < |columns| {
        assert forall k :: 0 <= k < |columns[a]| ==> !OnScreen(columns[a][k], vp);
        NoneVisible(columns[a], vp);
      }
      SkipInvisibleColumns(columns, a + 1, b, vp);
    }
  }

  /** Completeness, per the doc comment's "only measure and place visible
      items": with ordered columns and a safe hint, a pass emits exactly the
      on-screen periods of all columns, column by column. */
  lemma MeasureExact(s: State, columns: seq<seq<Period>>, maxWidth: int, maxHeight: int,
                     paddingRight: int, paddingBottom: int)
    requires columns != [] && AllOrdered(columns)
    requires HintSafe(columns, ScanStart(s), ViewportOf(s, maxWidth, maxHeight))
    ensures var r := Measure(s, columns, maxWidth, maxHeight, paddingRight, paddingBottom);
            && r.Measured?
            && r.layout.placements == VisibleFrom(columns, 0, ViewportOf(s, maxWidth, maxHeight))
            && forall d, k :: 0 <= d < |columns| && 0 <= k < |columns[d]|
                              && OnScreen(columns[d][k], ViewportOf(s, maxWidth, maxHeight))
                              ==> Place(columns[d][k], ViewportOf(s, maxWidth, maxHeight)) in r.layout.placements
  {
    var vp := ViewportOf(s, maxWidth, maxHeight);
    ScanColumnsExact(columns, ScanStart(s), vp);
    SkipInvisibleColumns(columns, 0, ScanStart(s), vp);
    forall d, k | 0 <= d < |columns| && 0 <= k < |columns[d]| && OnScreen(columns[d][k], vp)
      ensures Place(columns[d][k], vp) in VisibleFrom(columns, 0, vp)
    {
      VisibleFromContains(columns, 0, vp, d, k);
    }
  }

  /** Every item carries a column number in [lo, hi), and the numbers never decrease. */
  predicate InColumnOrder(r: seq<VisibleItem>, lo: int, hi: int) {
    && (forall i :: 0 <= i < |r| ==> r[i].columnNumber.Some? && lo <= r[i].columnNumber.value < hi)
    && (forall i, j :: 0 <= i <= j < |r| ==> r[i].columnNumber.value <= r[j].columnNumber.value)
  }

  /** Every item one column emits carries that column's number. */
  lemma ScanColumnNumbered(col: seq<Period>, c: int, vp: Viewport)
    requires forall k :: 0 <= k < |col| ==> col[k].columnNumber == c
    ensures forall v :: v in ScanColumn(col, vp) ==> v.columnNumber == Some(c)
  {
  }

  /** One column's items followed by the later columns' stay in column order. */
  lemma ConcatInColumnOrder(here: seq<VisibleItem>, rest: seq<VisibleItem>, c: int, hi: int)
    requires c < hi && InColumnOrder(rest, c + 1, hi)
    requires forall v :: v in here ==> v.columnNumber == Some(c)
    ensures InColumnOrder(here + rest, c, hi)
  {
    var r := here + rest;
    forall i | 0 <= i < |r| ensures r[i].columnNumber.Some? && c <= r[i].columnNumber.value < hi {
      if i < |here| { assert r[i] == here[i] && here[i] in here; } else { assert r[i] == rest[i - |here|]; }
    }
    forall i, j | 0 <= i <= j < |r| ensures r[i].columnNumber.value <= r[j].columnNumber.value {
      if j < |here| {
        assert r[i] == here[i] && here[i] in here && r[j] == here[j] && here[j] in here;
      } else if i < |here| {
        assert r[i] == here[i] && here[i] in here && r[j] == rest[j - |here|];
      } else {
        assert r[i] == rest[i - |here|] && r[j] == rest[j - |here|];
      }
    }
  }

  /** Emitted items come column by column from the scan start on, so the
      recorded first visible column never exceeds the last. */
  lemma {:induction false} ScanColumnsInColumnOrder(columns: seq<seq<Period>>, c: nat, vp: Viewport)
    requires Numbered(columns)
    decreases |columns| - c
    ensures InColumnOrder(ScanColumns(columns, c, vp), c, |columns|)
  {
    if c < |columns| {
      ScanColumnsInColumnOrder(columns, c + 1, vp);
      ScanColumnNumbered(columns[c], c, vp);
      ConcatInColumnOrder(ScanColumn(columns[c], vp), ScanColumns(columns, c + 1, vp), c, |columns|);
    }
  }

  lemma HintsOrdered(s: State, columns: seq<seq<Period>>, maxWidth: int, maxHeight: int,
                     paddingRight: int, paddingBottom: int)
    requires Numbered(columns)
    ensures var r := Measure(s, columns, maxWidth, maxHeight, paddingRight, paddingBottom);
            && r.state.firstVisibleColumnNumber <= r.state.lastVisibleColumnNumber
            && (r.state.firstVisibleColumnNumber == -1 || ScanStart(s) <= r.state.firstVisibleColumnNumber)
  {
    var r := ScanColumns(columns, ScanStart(s), ViewportOf(s, maxWidth, maxHeight));
    ScanColumnsInColumnOrder(columns, ScanStart(s), ViewportOf(s, maxWidth, maxHeight));
    if r != [] {
      assert r[0].columnNumber.value <= r[|r| - 1].columnNumber.value;
    }
  }

  /** A pass that shows nothing resets the hint, so the next pass scans from column 0. */
  lemma NothingVisibleRestartsAtZero(s: State, columns: seq<seq<Period>>, maxWidth: int, maxHeight: int,
                                     paddingRight: int, paddingBottom: int)
    requires Measure(s, columns, maxWidth, maxHeight, paddingRight, paddingBottom).Measured?
    requires Measure(s, columns, maxWidth, maxHeight, paddingRight, paddingBottom).layout.placements == []
    ensures ScanStart(Measure(s, columns, maxWidth, maxHeight, paddingRight, paddingBottom).state) == 0
  {
  }

  /** With ordered, numbered columns and a safe hint, a second pass over the
      same geometry and offsets changes nothing: the hint it leaves behind
      is safe again. */
  lemma MeasureIdempotent(s: State, columns: seq<seq<Period>>, maxWidth: int, maxHeight: int,
                          paddingRight: int, paddingBottom: int)
    requires columns != [] && AllOrdered(columns) && Numbered(columns)
    requires HintSafe(columns, ScanStart(s), ViewportOf(s, maxWidth, maxHeight))
    ensures var r := Measure(s, columns, maxWidth, maxHeight, paddingRight, paddingBottom);
            Measure(r.state, columns, maxWidth, maxHeight, paddingRight, paddingBottom) == r
  {
    var vp := ViewportOf(s, maxWidth, maxHeight);
    var r := Measure(s, columns, maxWidth, maxHeight, paddingRight, paddingBottom);
    MeasureExact(s, columns, maxWidth, maxHeight, paddingRight, paddingBottom);
    ScanColumnsInColumnOrder(columns, ScanStart(s), vp);
    ScanColumnsExact(columns, ScanStart(s), vp);
    var placements := r.layout.placements;
    assert ViewportOf(r.state, maxWidth, maxHeight) == vp;
    assert HintSafe(columns, ScanStart(r.state), vp);
    MeasureExact(r.state, columns, maxWidth, maxHeight, paddingRight, paddingBottom);
  }

  /** The hint is only a hint: after a jump of more than one column to the
      left, a visible column before the scan start is not measured. */
  lemma HintCanHideVisibleColumn()
    ensures var p := Period(0, 0, 0, 0, 100, 100, 0, 0, Slot(0));
            var q := Period(1, 0, 0, 1, 100, 100, 1000, 0, Slot(1));
            var r := Measure(State(0, 0, 2, 2, 0, 0), [[p], [q]], 500, 500, 0, 0);
            && OnScreen(p, Viewport(0, 0, 500, 500))
            && r.Measured? && r.layout.placements == []
  {
  }
}
