/** The sticky header strip's measurement pass
    (`lazyColumnHeaderMeasurementPolicy` in LazyColumnHeaderMeasurementPolicy.kt):
    headers follow the horizontal scroll only; one scan over all headers
    skips those off the left edge and stops at the first one past the right. */
module ColumnHeaderPolicy {
  import opened Kotlin
  import opened Geometry
  import opened Layout
  import opened TimetableState

  /** The pass's fixed inputs: pixel sizes and the incoming maximum width. */
  datatype Strip = Strip(timeColumnWidthPx: int, paddingTopPx: int, paddingLeftPx: int, maxWidth: int)

  /** On-screen x of a header: left padding, time column, the header's own x and the scroll. */
  function HeaderX(h: ColumnHeader, strip: Strip, scrollX: int): int {
    strip.paddingLeftPx + strip.timeColumnWidthPx + h.x + scrollX
  }

  predicate HeaderOnScreen(h: ColumnHeader, strip: Strip, scrollX: int) {
    HeaderX(h, strip, scrollX) + h.width >= 0 && HeaderX(h, strip, scrollX) <= strip.maxWidth
  }

  /** Measuring header `index` at its exact size and placing it; the strip's
      column number and provider index are both the header's index. */
  function PlaceHeader(h: ColumnHeader, index: int, strip: Strip, scrollX: int): (v: VisibleItem)
    ensures HeaderOnScreen(h, strip, scrollX) <==> v.x + v.constraints.maxWidth >= 0 && v.x <= strip.maxWidth
    ensures v.z == 0 && v.columnNumber == Some(index) && v.index == index
    ensures v.y == strip.paddingTopPx + h.y && v.constraints == Exact(h.width, h.height)
  {
    VisibleItem(HeaderX(h, strip, scrollX), strip.paddingTopPx + h.y, 0, Some(index), index,
                Exact(h.width, h.height))
  }

  /** Emitted headers are placements of on-screen headers from index `i` on,
      in strictly increasing index order. */
  predicate EmittedInOrder(r: seq<VisibleItem>, headers: seq<ColumnHeader>, i: nat, strip: Strip, scrollX: int) {
    && (forall a :: 0 <= a < |r| ==>
          && r[a].columnNumber.Some?
          && i <= r[a].columnNumber.value < |headers|
          && HeaderOnScreen(headers[r[a].columnNumber.value], strip, scrollX)
          && r[a] == PlaceHeader(headers[r[a].columnNumber.value], r[a].columnNumber.value, strip, scrollX))
    && (forall a, b :: 0 <= a < b < |r| ==> r[a].columnNumber.value < r[b].columnNumber.value)
  }

  /** The loop from index `i`: `continue` off the left edge, `break` past the right. */
  function ScanHeaders(headers: seq<ColumnHeader>, i: nat, strip: Strip, scrollX: int): (r: seq<VisibleItem>)
    decreases |headers| - i
    ensures forall v :: v in r ==> v.x + v.constraints.maxWidth >= 0 && v.x <= strip.maxWidth && v.z == 0
    ensures EmittedInOrder(r, headers, i, strip, scrollX)
  {
    if i >= |headers| then []
    else
      var h := headers[i];
      var x := HeaderX(h, strip, scrollX);
      if x + h.width < 0 then ScanHeaders(headers, i + 1, strip, scrollX)
      else if x > strip.maxWidth then []
      else
        var rest := ScanHeaders(headers, i + 1, strip, scrollX);
        var r := [PlaceHeader(h, i, strip, scrollX)] + rest;
        assert forall a :: 1 <= a < |r| ==> r[a] == rest[a - 1];
        r
  }

  /** Reference definition: every on-screen header from index `i` on, in order. */
  function HeadersOnScreen(headers: seq<ColumnHeader>, i: nat, strip: Strip, scrollX: int): seq<VisibleItem>
    decreases |headers| - i
  {
    if i >= |headers| then []
    else (if HeaderOnScreen(headers[i], strip, scrollX) then [PlaceHeader(headers[i], i, strip, scrollX)] else [])
         + HeadersOnScreen(headers, i + 1, strip, scrollX)
  }

  /** Header x never decreases with the index (the builder's layout). */
  predicate HeadersOrdered(headers: seq<ColumnHeader>) {
    forall a, b :: 0 <= a < b < |headers| ==> headers[a].x <= headers[b].x
  }

  lemma {:induction false} NoHeaderOnScreen(headers: seq<ColumnHeader>, i: nat, strip: Strip, scrollX: int)
    requires forall a :: i <= a < |headers| ==> !HeaderOnScreen(headers[a], strip, scrollX)
    decreases |headers| - i
    ensures HeadersOnScreen(headers, i, strip, scrollX) == []
  {
    if i < |headers| {
      NoHeaderOnScreen(headers, i + 1, strip, scrollX);
    }
  }

  /** With ordered headers the `break` is justified: the scan emits exactly
      the on-screen headers. */
  lemma {:induction false} ScanHeadersExact(headers: seq<ColumnHeader>, i: nat, strip: Strip, scrollX: int)
    requires HeadersOrdered(headers)
    decreases |headers| - i
    ensures ScanHeaders(headers, i, strip, scrollX) == HeadersOnScreen(headers, i, strip, scrollX)
  {
    if i < |headers| {
      var x := HeaderX(headers[i], strip, scrollX);
      if x + headers[i].width >= 0 && x > strip.maxWidth {
        assert forall a :: i <= a < |headers| ==> !HeaderOnScreen(headers[a], strip, scrollX) by {
          forall a | i < a < |headers| ensures !HeaderOnScreen(headers[a], strip, scrollX) {
            assert headers[i].x <= headers[a].x;
          }
        }
        NoHeaderOnScreen(headers, i, strip, scrollX);
      } else {
        ScanHeadersExact(headers, i + 1, strip, scrollX);
      }
    }
  }

  lemma {:induction false} HeadersOnScreenContains(headers: seq<ColumnHeader>, i: nat, strip: Strip, scrollX: int, a: int)
    requires i <= a < |headers| && HeaderOnScreen(headers[a], strip, scrollX)
    decreases a - i
    ensures PlaceHeader(headers[a], a, strip, scrollX) in HeadersOnScreen(headers, i, strip, scrollX)
  {
    if a > i {
      HeadersOnScreenContains(headers, i + 1, strip, scrollX, a);
    }
  }

  /** One pass: `None` when the loop emits nothing, where `maxOf` throws;
      otherwise a layout as wide as the constraints and as tall as the
      lowest emitted header's bottom. */
  function MeasureHeaders(s: State, headers: seq<ColumnHeader>, strip: Strip): (r: Option<Layout>)
    ensures r.None? <==> ScanHeaders(headers, 0, strip, s.scrollXOffset) == []
    ensures r.Some? ==> r.value.width == strip.maxWidth
    ensures r.Some? ==> r.value.placements == ScanHeaders(headers, 0, strip, s.scrollXOffset)
    ensures r.Some? ==> forall a :: 0 <= a < |r.value.placements| ==>
              r.value.placements[a].y + r.value.placements[a].constraints.maxHeight <= r.value.height
    ensures r.Some? ==> exists a :: (0 <= a < |r.value.placements| &&
              r.value.placements[a].y + r.value.placements[a].constraints.maxHeight == r.value.height)
  {
    var visible := ScanHeaders(headers, 0, strip, s.scrollXOffset);
    if visible == [] then None
    else
      var bottoms := seq(|visible|, a requires 0 <= a < |visible| => visible[a].constraints.maxHeight + visible[a].y);
      var height := MaxOf(bottoms);
      assert forall a :: 0 <= a < |visible| ==> visible[a].y + visible[a].constraints.maxHeight == bottoms[a];
      Some(Layout(strip.maxWidth, height, visible))
  }

  /** Vertical scroll never affects the header strip. */
  lemma HeadersIgnoreVerticalScroll(s: State, t: State, headers: seq<ColumnHeader>, strip: Strip)
    requires s.scrollXOffset == t.scrollXOffset
    ensures MeasureHeaders(s, headers, strip) == MeasureHeaders(t, headers, strip)
  {
  }

  /** Soundness and completeness: with ordered headers, a pass places a
      header exactly when it is on screen. */
  lemma HeadersExact(s: State, headers: seq<ColumnHeader>, strip: Strip, a: int)
    requires HeadersOrdered(headers) && 0 <= a < |headers|
    ensures var r := MeasureHeaders(s, headers, strip);
            HeaderOnScreen(headers[a], strip, s.scrollXOffset) <==>
              r.Some? && PlaceHeader(headers[a], a, strip, s.scrollXOffset) in r.value.placements
  {
    var scan := ScanHeaders(headers, 0, strip, s.scrollXOffset);
    var v := PlaceHeader(headers[a], a, strip, s.scrollXOffset);
    if HeaderOnScreen(headers[a], strip, s.scrollXOffset) {
      ScanHeadersExact(headers, 0, strip, s.scrollXOffset);
      HeadersOnScreenContains(headers, 0, strip, s.scrollXOffset, a);
    }
  }
}
