/** The alarm predicate: the alarm rings during the last ten seconds of every
    five-minute interval of the wall clock. */
module AlarmWindow {
  import opened TimeOfDay

  /** The rule evaluated on every tick: minute is 4, 9, 14, ..., 59 and the
      second is 50 or later. */
  predicate ShouldAlarm(minutes: Minute, seconds: Second)
    // it holds exactly during the final ten seconds before a five-minute boundary
    ensures ShouldAlarm(minutes, seconds) <==> SecondsToBoundary(minutes, seconds) <= 10
  {
    PositionInBlock(minutes, seconds);
    minutes % 5 == 4 && seconds >= 50
  }

  /** Seconds elapsed since the start of the hour. */
  function SecondOfHour(minutes: Minute, seconds: Second): (t: nat)
    ensures t < 3600
    ensures t / 60 == minutes && t % 60 == seconds
  {
    60 * minutes + seconds
  }

  /** Seconds left until the next five-minute boundary (:00, :05, ..., :55). */
  function SecondsToBoundary(minutes: Minute, seconds: Second): (d: int)
    ensures 1 <= d <= 300
    ensures (SecondOfHour(minutes, seconds) + d) % 300 == 0
  {
    300 - SecondOfHour(minutes, seconds) % 300
  }

  /** Splitting the second of the hour into five-minute blocks: the position
      inside the block is 60 times the minute inside the block plus the second. */
  lemma {:induction false} PositionInBlock(minutes: Minute, seconds: Second)
    ensures SecondOfHour(minutes, seconds) % 300 == 60 * (minutes % 5) + seconds
  {
    var q := minutes / 5;
    var r := minutes % 5;
    assert minutes == 5 * q + r;
    var t := SecondOfHour(minutes, seconds);
    assert t == 300 * q + (60 * r + seconds);
    assert 0 <= 60 * r + seconds < 300;
  }

  /** The same rule on the second of the hour. */
  predicate AlarmAtSecond(t: nat)
    requires t < 3600
  {
    ShouldAlarm(t / 60, t % 60)
  }

  lemma AlarmAtSecondIffBlockTail(t: nat)
    requires t < 3600
    ensures AlarmAtSecond(t) <==> t % 300 >= 290
  {
    PositionInBlock(t / 60, t % 60);
    assert SecondOfHour(t / 60, t % 60) == t;
  }

  /** Number of seconds t < n of the hour during which the alarm rings. */
  function AlarmSecondsBefore(n: nat): nat
    requires n <= 3600
  {
    if n == 0 then 0
    else AlarmSecondsBefore(n - 1) + (if AlarmAtSecond(n - 1) then 1 else 0)
  }

  /** Closed form of the count: ten seconds per completed block plus the part
      of the current block's tail already reached. */
  lemma {:induction false} AlarmSecondsBeforeClosedForm(n: nat)
    requires n <= 3600
    ensures AlarmSecondsBefore(n) == 10 * (n / 300) + (if n % 300 > 290 then n % 300 - 290 else 0)
  {
    if n > 0 {
      AlarmSecondsBeforeClosedForm(n - 1);
      AlarmAtSecondIffBlockTail(n - 1);
      var k := n - 1;
      var q := k / 300;
      var r := k % 300;
      assert k == 300 * q + r;
      if r == 299 {
        assert n == 300 * (q + 1) + 0;
        assert n / 300 == q + 1 && n % 300 == 0;
      } else {
        assert n == 300 * q + (r + 1);
        assert n / 300 == q && n % 300 == r + 1;
      }
    }
  }

  /** Over a whole hour the alarm rings for exactly 120 seconds: ten seconds
      in each of the twelve five-minute intervals. */
  lemma AlarmSecondsPerHour()
    ensures AlarmSecondsBefore(3600) == 120
  {
    AlarmSecondsBeforeClosedForm(3600);
  }
}
