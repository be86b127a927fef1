/** The pure part of `updateClock`: hand rotations and the 12-hour digital
    readout. Angles are kept in half-degrees so that the hour hand's creep of
    half a degree per minute stays an exact integer. */
module ClockFace {
  import opened TimeOfDay
  import opened Decimal

  // ---------------------------------------------------------------- hands

  /** Rotation of each hand, in half-degrees (twice the CSS `deg` value). */
  datatype HandAngles = HandAngles(hourHalfDegrees: int, minuteHalfDegrees: int, secondHalfDegrees: int)

  /** Hour hand: 30 degrees per hour plus 6*m/12 degrees, not reduced
      modulo 360, so the afternoon positions lie between 360 and 720 degrees. */
  function HourHalfDegrees(hours: Hour, minutes: Minute): (a: int)
    ensures 0 <= a < 1440
    // the angle determines the time it shows: hour and minute read back
    ensures a / 60 == hours && a % 60 == minutes
  {
    2 * (30 * hours) + 2 * (6 * minutes) / 12
  }

  /** Minute and second hands: 6 degrees per unit. */
  function SixtiethHalfDegrees(units: int): (a: int)
    requires 0 <= units < 60
    ensures a % 12 == 0 && 0 <= a <= 708
    ensures a / 12 == units
  {
    2 * (6 * units)
  }

  function HandAnglesAt(r: ClockReading): (angles: HandAngles)
    // minute and second hands sit on whole multiples of 6 degrees in [0, 354]
    ensures angles.minuteHalfDegrees % 12 == 0 && 0 <= angles.minuteHalfDegrees <= 2 * 354
    ensures angles.secondHalfDegrees % 12 == 0 && 0 <= angles.secondHalfDegrees <= 2 * 354
    // the hour hand stays below 720 degrees
    ensures 0 <= angles.hourHalfDegrees < 2 * 720
    // and the three angles determine the reading
    ensures angles.hourHalfDegrees / 60 == r.hours
    ensures angles.minuteHalfDegrees / 12 == r.minutes && angles.secondHalfDegrees / 12 == r.seconds
  {
    HandAngles(HourHalfDegrees(r.hours, r.minutes),
               SixtiethHalfDegrees(r.minutes),
               SixtiethHalfDegrees(r.seconds))
  }

  /** The hour hand creeps half a degree every minute, including across the
      change of hour. */
  lemma HourHandContinuous(hours: Hour, minutes: Minute)
    ensures minutes < 59 ==> HourHalfDegrees(hours, minutes + 1) == HourHalfDegrees(hours, minutes) + 1
    ensures minutes == 59 && hours < 23 ==> HourHalfDegrees(hours + 1, 0) == HourHalfDegrees(hours, minutes) + 1
  {
  }

  /** Afternoon hours point the same way as the morning ones: the angle is
      larger by exactly one full turn. */
  lemma HourHandAfternoonFullTurn(hours: Hour, minutes: Minute)
    requires hours < 12
    ensures HourHalfDegrees(hours + 12, minutes) == HourHalfDegrees(hours, minutes) + 2 * 360
  {
  }

  // --------------------------------------------------------- 12-hour time

  datatype Meridiem = AM | PM

  function MeridiemText(p: Meridiem): string {
    match p
    case AM => "AM"
    case PM => "PM"
  }

  /** A 12-hour reading as displayed. */
  datatype TwelveHour = TwelveHour(hour: int, meridiem: Meridiem)

  /** The conversion in `updateClock`: PM from noon on, hours above 12 lose
      12, and hour 0 is shown as 12. */
  function ToTwelveHour(hours: Hour): (t: TwelveHour)
    ensures 1 <= t.hour <= 12
    ensures t.meridiem == AM <==> hours < 12
    ensures t.hour % 12 == hours % 12
  {
    var meridiem := if hours >= 12 then PM else AM;
    var h := if hours > 12 then hours - 12 else hours;
    var h' := if h == 0 then 12 else h;
    TwelveHour(h', meridiem)
  }

  /** Reading a 12-hour display back as a 24-hour hour. */
  function FromTwelveHour(t: TwelveHour): (hours: int)
    requires 1 <= t.hour <= 12
    ensures 0 <= hours < 24
  {
    t.hour % 12 + (if t.meridiem == PM then 12 else 0)
  }

  lemma TwelveHourRoundTrip(hours: Hour)
    ensures FromTwelveHour(ToTwelveHour(hours)) == hours
  {
  }

  lemma TwelveHourRoundTripBack(t: TwelveHour)
    requires 1 <= t.hour <= 12
    ensures ToTwelveHour(FromTwelveHour(t)) == t
  {
  }

  // -------------------------------------------------------- digital readout

  /** The four text fields written by `updateClock`. */
  datatype Readout = Readout(hours: string, minutes: string, seconds: string, ampm: string)

  function ReadoutAt(r: ClockReading): (out: Readout)
    ensures |out.hours| == 2 && |out.minutes| == 2 && |out.seconds| == 2
    ensures AllDigits(out.hours) && AllDigits(out.minutes) && AllDigits(out.seconds)
    ensures ParseDecimal(out.hours) == ToTwelveHour(r.hours).hour
    ensures ParseDecimal(out.minutes) == r.minutes
    ensures ParseDecimal(out.seconds) == r.seconds
    ensures out.ampm == "AM" <==> r.hours < 12
    ensures out.ampm == "PM" <==> r.hours >= 12
  {
    var t := ToTwelveHour(r.hours);
    Readout(PadTwo(t.hour), PadTwo(r.minutes), PadTwo(r.seconds), MeridiemText(t.meridiem))
  }

  /** The readout loses nothing: it determines the reading it came from. */
  lemma ReadoutDeterminesReading(r1: ClockReading, r2: ClockReading)
    requires ReadoutAt(r1) == ReadoutAt(r2)
    ensures r1 == r2
  {
    var o1, o2 := ReadoutAt(r1), ReadoutAt(r2);
    var t1, t2 := ToTwelveHour(r1.hours), ToTwelveHour(r2.hours);
    assert t1.hour == t2.hour;
    assert t1.meridiem == t2.meridiem by {
      assert MeridiemText(t1.meridiem) == MeridiemText(t2.meridiem);
      assert "AM" != "PM";
    }
    TwelveHourRoundTrip(r1.hours);
    TwelveHourRoundTrip(r2.hours);
  }

  /** Worked examples from the widget's behaviour. */
  lemma ReadoutExamples()
    ensures ReadoutAt(ClockReading(0, 5, 7)) == Readout("12", "05", "07", "AM")
    ensures ReadoutAt(ClockReading(13, 30, 45)) == Readout("01", "30", "45", "PM")
    ensures HourHalfDegrees(3, 30) == 2 * 105
  {
  }
}
