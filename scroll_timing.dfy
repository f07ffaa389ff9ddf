/**
 * The dwell arithmetic of `drawScrollCondition`: how many half-second ticks a
 * scrolling line stays on screen, from the measured widths of its text and
 * of the area that shows it.
 */
module ScrollTiming {

  /** `SCROLL_SPEED`, in pixels per second. */
  const ScrollSpeed := 75

  /** Ticks of pause added around the scroll: one second before it starts and one after it ends. */
  const ScrollPause := 4

  /** The measurement of a rendered scroll element; both widths are whole pixels. */
  datatype Extent = Extent(scrollWidth: int, clientWidth: int)

  /** `Math.max(scrollWidth - clientWidth, 0)`. */
  function ScrollDistance(extent: Extent): (d: nat)
    ensures d >= extent.scrollWidth - extent.clientWidth
    ensures d == 0 || d == extent.scrollWidth - extent.clientWidth
  {
    if extent.scrollWidth > extent.clientWidth then extent.scrollWidth - extent.clientWidth else 0
  }

  /**
   * `Math.round(Math.ceil((d / 75) / 0.5) + 4)`. The widths are integers, so
   * `(d / 75) / 0.5` is the rational `2d / 75`, the ceiling is an integer and
   * the rounding does nothing: the value is `ceil(2d / 75) + 4`, computed here
   * on integers. The ticks beyond the pause are the fewest half seconds in
   * which the text moves by `d` at the scroll speed.
   */
  function ScrollDwell(extent: Extent): (ticks: nat)
    ensures ticks >= ScrollPause
    ensures ScrollSpeed * (ticks - ScrollPause) >= 2 * ScrollDistance(extent)
    ensures ticks > ScrollPause ==> ScrollSpeed * (ticks - ScrollPause - 1) < 2 * ScrollDistance(extent)
  {
    (2 * ScrollDistance(extent) + ScrollSpeed - 1) / ScrollSpeed + ScrollPause
  }

  /** Text that fits its area still stays the four ticks of the pause. */
  lemma FittingTextDwellsMinimum(extent: Extent)
    requires extent.scrollWidth <= extent.clientWidth
    ensures ScrollDwell(extent) == ScrollPause
  {
  }

  /** 300 pixels to scroll take four seconds, eight ticks, plus the pause: twelve ticks. */
  lemma ThreeHundredPixelsDwellTwelve()
    ensures ScrollDwell(Extent(500, 200)) == 12
  {
  }

  /** More text to scroll never shortens the dwell. */
  lemma DwellMonotonic(shorter: Extent, longer: Extent)
    requires ScrollDistance(shorter) <= ScrollDistance(longer)
    ensures ScrollDwell(shorter) <= ScrollDwell(longer)
  {
  }
}
