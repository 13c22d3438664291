/** How the chart's width is split between the value axis and the bar area. */
module Layout {

  /** Go's `n / 2` on an `int`: the quotient is truncated toward zero
      (Dafny's own `/` is Euclidean and differs for negative `n`). */
  function Half(n: int): (r: int)
    ensures n >= 0 ==> 0 <= 2 * r <= n < 2 * r + 2
    ensures n < 0 ==> 2 * r - 2 < n <= 2 * r <= 0
  {
    if n >= 0 then n / 2 else -((-n) / 2)
  }

  /** The split of the control width: the axis occupies the first `offset`
      columns, bars occupy the following `barWidth` columns. */
  datatype Area = Area(offset: int, barWidth: int)

  /** calculateBarArea: the axis is reserved only when the configured value
      width is less than half of the control width; otherwise it is ignored
      for this call and the bars get the whole width. */
  function BarArea(width: int, valueWidth: int): (a: Area)
    ensures a.offset + a.barWidth == width
    ensures valueWidth < Half(width) ==> a.offset == valueWidth
    ensures valueWidth >= Half(width) ==> a.offset == 0
  {
    if valueWidth < Half(width) then Area(valueWidth, width - valueWidth)
    else Area(0, width)
  }

  /** With non-negative sizes both regions lie inside the control, and a
      reserved axis is always narrower than the bar area beside it. */
  lemma BarAreaWithinControl(width: int, valueWidth: int)
    requires width >= 0 && valueWidth >= 0
    ensures 0 <= BarArea(width, valueWidth).offset
    ensures 0 <= BarArea(width, valueWidth).barWidth <= width
    ensures BarArea(width, valueWidth).offset > 0 ==>
              2 * BarArea(width, valueWidth).offset < width &&
              BarArea(width, valueWidth).offset < BarArea(width, valueWidth).barWidth
  {
  }

  /** A control of non-negative width never yields a negative bar capacity,
      whatever (possibly negative) value width is configured. */
  lemma CapacityNonNegative(width: int, valueWidth: int)
    requires width >= 0
    ensures BarArea(width, valueWidth).barWidth >= 0
  {
  }

  /** A value width of 6 on a 10-column control is not below 10/2, so the
      axis is suppressed and the bars use all ten columns. */
  lemma WideAxisSuppressed()
    ensures BarArea(10, 6) == Area(0, 10)
  {
  }
}
