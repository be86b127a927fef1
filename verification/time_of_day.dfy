/** Wall-clock readings as the browser's `Date` reports them: the clock widget
    only ever looks at the local hour, minute and second. */
module TimeOfDay {

  /** `getHours()`: 0 .. 23 */
  type Hour = h: int | 0 <= h < 24

  /** `getMinutes()`: 0 .. 59 */
  type Minute = m: int | 0 <= m < 60

  /** `getSeconds()`: 0 .. 59 */
  type Second = s: int | 0 <= s < 60

  /** One reading of the local clock, taken once per tick. */
  datatype ClockReading = ClockReading(hours: Hour, minutes: Minute, seconds: Second)
}
