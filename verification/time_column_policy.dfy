/** The sticky time column's measurement pass
    (`lazyTimeColumnMeasurementPolicy` in LazyTimeColumnMeasurementPolicy.kt):
    labels follow the vertical scroll only; one scan over all labels skips
    those above the top and stops at the first one below the bottom. */
module TimeColumnPolicy {
  import opened Kotlin
  import opened Geometry
  import opened Layout
  import opened TimetableState

  /** The pass's fixed inputs: the left padding and the incoming maximum height. */
  datatype Strip = Strip(paddingLeftPx: int, maxHeight: int)

  predicate LabelOnScreen(tl: TimeLabel, strip: Strip, scrollY: int) {
    tl.y + scrollY + tl.height >= 0 && tl.y + scrollY <= strip.maxHeight
  }

  /** Measuring label `index`: its width is fixed, its height is left to the
      content anywhere from 0 to the viewport height; no column number. */
  function PlaceLabel(tl: TimeLabel, index: int, strip: Strip, scrollY: int): (v: VisibleItem)
    ensures LabelOnScreen(tl, strip, scrollY) <==> v.y + tl.height >= 0 && v.y <= strip.maxHeight
    ensures v.x == tl.x + strip.paddingLeftPx && v.y == tl.y + scrollY
    ensures v.z == 0 && v.columnNumber.None? && v.index == index
    ensures v.constraints.minWidth == v.constraints.maxWidth == tl.width
    ensures v.constraints.minHeight == 0 && v.constraints.maxHeight == strip.maxHeight
  {
    VisibleItem(tl.x + strip.paddingLeftPx, tl.y + scrollY, 0, None, index,
                Constraints(tl.width, tl.width, 0, strip.maxHeight))
  }

  /** Emitted labels are placements of on-screen labels from index `i` on,
      in strictly increasing index order. */
  predicate EmittedInOrder(r: seq<VisibleItem>, labels: seq<TimeLabel>, i: nat, strip: Strip, scrollY: int) {
    && (forall a :: 0 <= a < |r| ==>
          && i <= r[a].index < |labels|
          && LabelOnScreen(labels[r[a].index], strip, scrollY)
          && r[a] == PlaceLabel(labels[r[a].index], r[a].index, strip, scrollY))
    && (forall a, b :: 0 <= a < b < |r| ==> r[a].index < r[b].index)
  }

  /** The loop from index `i`: `continue` above the top, `break` below the bottom. */
  function ScanLabels(labels: seq<TimeLabel>, i: nat, strip: Strip, scrollY: int): (r: seq<VisibleItem>)
    decreases |labels| - i
    ensures forall v :: v in r ==> v.y <= strip.maxHeight && v.z == 0 && v.columnNumber.None?
    ensures EmittedInOrder(r, labels, i, strip, scrollY)
  {
    if i >= |labels| then []
    else
      var tl := labels[i];
      var y := tl.y + scrollY;
      if y + tl.height < 0 then ScanLabels(labels, i + 1, strip, scrollY)
      else if y > strip.maxHeight then []
      else
        var rest := ScanLabels(labels, i + 1, strip, scrollY);
        var r := [PlaceLabel(tl, i, strip, scrollY)] + rest;
        assert forall a :: 1 <= a < |r| ==> r[a] == rest[a - 1];
        r
  }

  /** Reference definition: every on-screen label from index `i` on, in order. */
  function LabelsOnScreen(labels: seq<TimeLabel>, i: nat, strip: Strip, scrollY: int): seq<VisibleItem>
    decreases |labels| - i
  {
    if i >= |labels| then []
    else (if LabelOnScreen(labels[i], strip, scrollY) then [PlaceLabel(labels[i], i, strip, scrollY)] else [])
         + LabelsOnScreen(labels, i + 1, strip, scrollY)
  }

  /** Label y never decreases with the index (the builder's layout). */
  predicate LabelsOrdered(labels: seq<TimeLabel>) {
    forall a, b :: 0 <= a < b < |labels| ==> labels[a].y <= labels[b].y
  }

  lemma {:induction false} NoLabelOnScreen(labels: seq<TimeLabel>, i: nat, strip: Strip, scrollY: int)
    requires forall a :: i <= a < |labels| ==> !LabelOnScreen(labels[a], strip, scrollY)
    decreases |labels| - i
    ensures LabelsOnScreen(labels, i, strip, scrollY) == []
  {
    if i < |labels| {
      NoLabelOnScreen(labels, i + 1, strip, scrollY);
    }
  }

  /** With ordered labels the `break` is justified: the scan emits exactly
      the on-screen labels. */
  lemma {:induction false} ScanLabelsExact(labels: seq<TimeLabel>, i: nat, strip: Strip, scrollY: int)
    requires LabelsOrdered(labels)
    decreases |labels| - i
    ensures ScanLabels(labels, i, strip, scrollY) == LabelsOnScreen(labels, i, strip, scrollY)
  {
    if i < |labels| {
      var y := labels[i].y + scrollY;
      if y + labels[i].height >= 0 && y > strip.maxHeight {
        assert forall a :: i <= a < |labels| ==> !LabelOnScreen(labels[a], strip, scrollY) by {
          forall a | i < a < |labels| ensures !LabelOnScreen(labels[a], strip, scrollY) {
            assert labels[i].y <= labels[a].y;
          }
        }
        NoLabelOnScreen(labels, i, strip, scrollY);
      } else {
        ScanLabelsExact(labels, i + 1, strip, scrollY);
      }
    }
  }

  lemma {:induction false} LabelsOnScreenContains(labels: seq<TimeLabel>, i: nat, strip: Strip, scrollY: int, a: int)
    requires i <= a < |labels| && LabelOnScreen(labels[a], strip, scrollY)
    decreases a - i
    ensures PlaceLabel(labels[a], a, strip, scrollY) in LabelsOnScreen(labels, i, strip, scrollY)
  {
    if a > i {
      LabelsOnScreenContains(labels, i + 1, strip, scrollY, a);
    }
  }

  /** One pass: `None` when the loop emits nothing, where `maxOf` throws;
      otherwise a layout as tall as the constraints and as wide as the widest
      emitted label (its width is measured exactly). */
  function MeasureLabels(s: State, labels: seq<TimeLabel>, strip: Strip): (r: Option<Layout>)
    ensures r.None? <==> ScanLabels(labels, 0, strip, s.scrollYOffset) == []
    ensures r.Some? ==> r.value.height == strip.maxHeight
    ensures r.Some? ==> r.value.placements == ScanLabels(labels, 0, strip, s.scrollYOffset)
    ensures r.Some? ==> forall a :: 0 <= a < |r.value.placements| ==>
              labels[r.value.placements[a].index].width <= r.value.width
    ensures r.Some? ==> exists a :: (0 <= a < |r.value.placements| &&
              labels[r.value.placements[a].index].width == r.value.width)
  {
    var visible := ScanLabels(labels, 0, strip, s.scrollYOffset);
    if visible == [] then None
    else
      var widths := seq(|visible|, a requires 0 <= a < |visible| => visible[a].constraints.minWidth);
      var width := MaxOf(widths);
      assert forall a :: 0 <= a < |visible| ==> labels[visible[a].index].width == widths[a];
      Some(Layout(width, strip.maxHeight, visible))
  }

  /** Horizontal scroll never affects the time column. */
  lemma LabelsIgnoreHorizontalScroll(s: State, t: State, labels: seq<TimeLabel>, strip: Strip)
    requires s.scrollYOffset == t.scrollYOffset
    ensures MeasureLabels(s, labels, strip) == MeasureLabels(t, labels, strip)
  {
  }

  /** Soundness and completeness: with ordered labels, a pass places a label
      exactly when it is on screen. */
  lemma LabelsExact(s: State, labels: seq<TimeLabel>, strip: Strip, a: int)
    requires LabelsOrdered(labels) && 0 <= a < |labels|
    ensures var r := MeasureLabels(s, labels, strip);
            LabelOnScreen(labels[a], strip, s.scrollYOffset) <==>
              r.Some? && PlaceLabel(labels[a], a, strip, s.scrollYOffset) in r.value.placements
  {
    if LabelOnScreen(labels[a], strip, s.scrollYOffset) {
      ScanLabelsExact(labels, 0, strip, s.scrollYOffset);
      LabelsOnScreenContains(labels, 0, strip, s.scrollYOffset, a);
    }
  }
}
