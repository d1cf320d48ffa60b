/** The coming-soon page's countdown: every second the distance in
    milliseconds to the target date is split into days, hours, minutes and
    seconds, and once it is negative the end text replaces the display.
    JavaScript's `%` keeps the dividend's sign and `Math.floor` of a
    quotient by a positive divisor is Dafny's `/`. */
module Countdown {
  import opened Js

  const Second: int := 1000
  const Minute: int := 1000 * 60
  const Hour: int := 1000 * 60 * 60
  const Day: int := 1000 * 60 * 60 * 24

  datatype Units = Units(days: int, hours: int, minutes: int, seconds: int)

  /** What one tick shows. */
  datatype Display = Showing(units: Units) | Ended

  /** Before the end every unit is in its clock range; once the distance
      is negative the hours, minutes and seconds are zero or negative,
      which the end text hides. */
  function Split(distance: int): (u: Units)
    ensures u.days * Day <= distance < (u.days + 1) * Day
    ensures distance >= 0 ==> u.days >= 0 && 0 <= u.hours < 24 && 0 <= u.minutes < 60 && 0 <= u.seconds < 60
    ensures distance < 0 ==> u.days < 0 && -24 <= u.hours <= 0 && -60 <= u.minutes <= 0 && -60 <= u.seconds <= 0
  {
    Units(distance / Day,
          Rem(distance, Day) / Hour,
          Rem(distance, Hour) / Minute,
          Rem(distance, Minute) / Second)
  }

  function Recomposed(u: Units): int {
    u.days * Day + u.hours * Hour + u.minutes * Minute + u.seconds * Second
  }

  /** A tick: the units are always rendered, then replaced by the end text
      (and the interval cleared) when `distance < 0`. */
  function Tick(distance: int): (d: Display)
    ensures d == Ended <==> distance < 0
    ensures d.Showing? ==> d.units == Split(distance)
  {
    if distance < 0 then Ended else Showing(Split(distance))
  }

  /** The displayed units add up to the distance, less the milliseconds
      below one second. */
  lemma Recomposition(distance: int)
    requires distance >= 0
    ensures Recomposed(Split(distance)) <= distance < Recomposed(Split(distance)) + Second
  {
    var u := Split(distance);
    var rd, rh, rm := distance % Day, distance % Hour, distance % Minute;
    assert distance == u.days * Day + rd;
    assert rd == u.hours * Hour + rh by {
      assert distance == (u.days * 24 + rd / Hour) * Hour + rd % Hour;
      ModOfDecomposition(distance, u.days * 24 + rd / Hour, rd % Hour, Hour);
    }
    assert rh == u.minutes * Minute + rm by {
      assert distance == (distance / Hour * 60 + rh / Minute) * Minute + rh % Minute;
      ModOfDecomposition(distance, distance / Hour * 60 + rh / Minute, rh % Minute, Minute);
    }
    assert rm == u.seconds * Second + rm % Second;
  }

  /** Division with remainder is unique. */
  lemma ModOfDecomposition(d: int, q: int, r: int, unit: int)
    requires unit in {Hour, Minute} && 0 <= r < unit && d == q * unit + r
    ensures d % unit == r
  {
    if unit == Hour {
      assert d == (d / Hour) * Hour + d % Hour;
    } else {
      assert d == (d / Minute) * Minute + d % Minute;
    }
  }
}
