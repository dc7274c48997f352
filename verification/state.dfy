/** The scroll state (`LazyTimetableState` in LazyTimetableState.kt): two
    pixel offsets, each clamped into [min, 0], the visible-column hints the
    measurement pass leaves for the next pass, and the four-integer
    save/restore pair. Offsets are stored as content motion: scrolling
    towards later content makes them more negative. */
module TimetableState {
  import opened Kotlin

  /** Both scroll maxima are the constant 0: content never moves past its start. */
  const ScrollVerticalMax: int := 0
  const ScrollHorizontalMax: int := 0

  datatype State = State(
    scrollYOffset: int,
    scrollXOffset: int,
    firstVisibleColumnNumber: int,
    lastVisibleColumnNumber: int,
    scrollVerticalMin: int,
    scrollHorizontalMin: int)

  /** A freshly constructed state. */
  function Fresh(): (s: State)
    ensures s.scrollXOffset == 0 && s.scrollYOffset == 0
    ensures s.firstVisibleColumnNumber == -1 && s.lastVisibleColumnNumber == -1
    ensures s.scrollVerticalMin == 0 && s.scrollHorizontalMin == 0
  {
    State(0, 0, -1, -1, 0, 0)
  }

  /** One axis of `scroll`: add the delta, `coerceAtMost(max)`, then
      `coerceAtLeast(min)`. The lower bound is applied last, so it wins
      when the bounds cross. */
  function ClampAxis(offset: int, delta: int, min: int, max: int): (r: int)
    ensures min <= max ==> min <= r <= max
    ensures min <= offset + delta <= max ==> r == offset + delta
    ensures min <= max < offset + delta ==> r == max
    ensures offset + delta < min ==> r == min
    ensures min > max ==> r == min
  {
    CoerceAtLeast(CoerceAtMost(offset + delta, max), min)
  }

  /** `scroll(deltaX, deltaY)`: each axis moves by its own delta within its
      own bounds; the hints and the bounds are untouched. */
  function Scroll(s: State, deltaX: int, deltaY: int): (s': State)
    ensures s' == s.(scrollXOffset := s'.scrollXOffset, scrollYOffset := s'.scrollYOffset)
    ensures s.scrollHorizontalMin <= 0 ==> s.scrollHorizontalMin <= s'.scrollXOffset <= ScrollHorizontalMax
    ensures s.scrollVerticalMin <= 0 ==> s.scrollVerticalMin <= s'.scrollYOffset <= ScrollVerticalMax
    // content that fits the viewport (a positive minimum) pins the offset at the minimum
    ensures s.scrollHorizontalMin > 0 ==> s'.scrollXOffset == s.scrollHorizontalMin
    ensures s.scrollVerticalMin > 0 ==> s'.scrollYOffset == s.scrollVerticalMin
    ensures s.scrollHorizontalMin <= s.scrollXOffset + deltaX <= 0 ==> s'.scrollXOffset == s.scrollXOffset + deltaX
    ensures s.scrollVerticalMin <= s.scrollYOffset + deltaY <= 0 ==> s'.scrollYOffset == s.scrollYOffset + deltaY
  {
    s.(scrollXOffset := ClampAxis(s.scrollXOffset, deltaX, s.scrollHorizontalMin, ScrollHorizontalMax),
       scrollYOffset := ClampAxis(s.scrollYOffset, deltaY, s.scrollVerticalMin, ScrollVerticalMax))
  }

  /** The offsets lie within their bounds. */
  predicate InBounds(s: State) {
    && s.scrollHorizontalMin <= s.scrollXOffset <= ScrollHorizontalMax
    && s.scrollVerticalMin <= s.scrollYOffset <= ScrollVerticalMax
  }

  /** The axes are independent: the new x offset depends only on the old x
      offset, `deltaX` and the horizontal minimum, and likewise for y. */
  lemma ScrollAxesIndependent(s: State, t: State, dx: int, dy: int, dx': int, dy': int)
    ensures s.scrollXOffset == t.scrollXOffset && s.scrollHorizontalMin == t.scrollHorizontalMin
            ==> Scroll(s, dx, dy).scrollXOffset == Scroll(t, dx, dy').scrollXOffset
    ensures s.scrollYOffset == t.scrollYOffset && s.scrollVerticalMin == t.scrollVerticalMin
            ==> Scroll(s, dx, dy).scrollYOffset == Scroll(t, dx', dy).scrollYOffset
  {
  }

  /** A drag past a bound is pinned exactly at that bound, on either axis. */
  lemma ScrollPinsAtBound(s: State, deltaX: int, deltaY: int)
    ensures s.scrollHorizontalMin <= 0 && s.scrollXOffset + deltaX < s.scrollHorizontalMin
            ==> Scroll(s, deltaX, deltaY).scrollXOffset == s.scrollHorizontalMin
    ensures s.scrollHorizontalMin <= 0 && s.scrollXOffset + deltaX > ScrollHorizontalMax
            ==> Scroll(s, deltaX, deltaY).scrollXOffset == ScrollHorizontalMax
    ensures s.scrollVerticalMin <= 0 && s.scrollYOffset + deltaY < s.scrollVerticalMin
            ==> Scroll(s, deltaX, deltaY).scrollYOffset == s.scrollVerticalMin
    ensures s.scrollVerticalMin <= 0 && s.scrollYOffset + deltaY > ScrollVerticalMax
            ==> Scroll(s, deltaX, deltaY).scrollYOffset == ScrollVerticalMax
  {
  }

  /** Two scrolls that stay inside the bounds add up to one scroll by the summed deltas. */
  lemma UnclampedScrollsCompose(s: State, dx1: int, dy1: int, dx2: int, dy2: int)
    requires s.scrollHorizontalMin <= s.scrollXOffset + dx1 <= 0
    requires s.scrollHorizontalMin <= s.scrollXOffset + dx1 + dx2 <= 0
    requires s.scrollVerticalMin <= s.scrollYOffset + dy1 <= 0
    requires s.scrollVerticalMin <= s.scrollYOffset + dy1 + dy2 <= 0
    ensures Scroll(Scroll(s, dx1, dy1), dx2, dy2) == Scroll(s, dx1 + dx2, dy1 + dy2)
  {
  }

  /** Clamping is idempotent: a second zero scroll changes nothing. */
  lemma ClampIdempotent(s: State)
    ensures Scroll(Scroll(s, 0, 0), 0, 0) == Scroll(s, 0, 0)
  {
  }

  /** A state that is already in bounds is a fixed point of a zero scroll. */
  lemma InBoundsIsFixedPoint(s: State)
    requires InBounds(s)
    ensures Scroll(s, 0, 0) == s
  {
  }

  /** `SAVER.save`: scrollY, scrollX, first and last visible column, in that order. */
  function Save(s: State): (saved: seq<int>)
    ensures |saved| == 4
    ensures saved[0] == s.scrollYOffset && saved[1] == s.scrollXOffset
    ensures saved[2] == s.firstVisibleColumnNumber && saved[3] == s.lastVisibleColumnNumber
  {
    [s.scrollYOffset, s.scrollXOffset, s.firstVisibleColumnNumber, s.lastVisibleColumnNumber]
  }

  /** `SAVER.restore`: a fresh state with the four saved fields written back.
      `None` for a list shorter than four, where `it[i]` throws. */
  function Restore(saved: seq<int>): (r: Option<State>)
    ensures r.Some? <==> |saved| >= 4
    ensures r.Some? ==> r.value.scrollVerticalMin == 0 && r.value.scrollHorizontalMin == 0
  {
    if |saved| < 4 then None
    else Some(Fresh().(scrollYOffset := saved[0], scrollXOffset := saved[1],
                       firstVisibleColumnNumber := saved[2], lastVisibleColumnNumber := saved[3]))
  }

  /** Restoring a saved state reproduces its offsets and hints; the scroll
      bounds are not persisted and come back at their default 0. */
  lemma SaveRestore(s: State)
    ensures Restore(Save(s)) == Some(s.(scrollVerticalMin := 0, scrollHorizontalMin := 0))
  {
  }

  /** The other direction: saving a restored state gives back the first four integers. */
  lemma RestoreSave(saved: seq<int>)
    requires |saved| >= 4
    ensures Restore(saved).Some? && Save(Restore(saved).value) == saved[..4]
  {
  }
}
