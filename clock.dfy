/** Clock readings as the browser's `Date` reports them. */
module Clock {
  /** `Date.getDay()`: 0 is Sunday, 6 is Saturday. */
  type Weekday = d: int | 0 <= d <= 6
  /** `Date.getHours()`. */
  type Hour = h: int | 0 <= h <= 23
  /** `Date.getMonth()`, 0-based: 8 is September, 11 is December. */
  type Month = m: int | 0 <= m <= 11
}
