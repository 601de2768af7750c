/** Time units and the 12-hour edit/cancel window that the rental
    controller applies to both update and cancel. Timestamps are integer
    milliseconds since the epoch. */
module TimeWindow {

  const MsPerSecond: int := 1000
  const MsPerHour: int := 1000 * 60 * 60
  const MsPerDay: int := 1000 * 60 * 60 * 24

  /** Hours after creation during which a rental may still be changed. */
  const WindowHours: int := 12

  /** The window in milliseconds (the client's TWELVE_HOURS_MS). */
  const TwelveHoursMs: int := 12 * 60 * 60 * 1000

  /** Hours elapsed since `createdAt`, computed as the controller does:
      the millisecond difference divided by 1000*60*60, as a fraction. */
  function ElapsedHours(createdAt: int, now: int): real {
    (now - createdAt) as real / (MsPerHour as real)
  }

  /** The controller's rejection test `diffHours > 12`. */
  predicate WindowExpired(createdAt: int, now: int) {
    ElapsedHours(createdAt, now) > WindowHours as real
  }

  /** The fractional-hours test rejects exactly when more than twelve
      hours' worth of milliseconds have passed; exactly twelve hours is
      still inside the window. */
  lemma ExpiredIffPastTwelveHours(createdAt: int, now: int)
    ensures WindowExpired(createdAt, now) <==> now - createdAt > TwelveHoursMs
  {
    var d := now - createdAt;
    var h := MsPerHour as real;
    assert ElapsedHours(createdAt, now) * h == d as real;
    if d > TwelveHoursMs {
      assert d as real >= (TwelveHoursMs + 1) as real;
    }
  }
}
