/**
 * UIOverlay's `formatTimeOfDay`: the time of day t (in days) shown as a
 * 24-hour "HH:MM" clock.
 */
module UIOverlay {
  import opened JsMath
  import opened JsText

  /** ⌊(24t) % 24⌋: the hour, in [0, 23] for t ≥ 0. */
  function Hours(t: real): (r: int)
    ensures 0.0 <= t ==> 0 <= r <= 23
  {
    JsModRange(t * 24.0, 24.0);
    Floor(JsMod(t * 24.0, 24.0))
  }

  /** ⌊(24·60·t) % 60⌋: the minute, in [0, 59] for t ≥ 0. */
  function Minutes(t: real): (r: int)
    ensures 0.0 <= t ==> 0 <= r <= 59
  {
    JsModRange(t * 24.0 * 60.0, 60.0);
    Floor(JsMod(t * 24.0 * 60.0, 60.0))
  }

  function FormatTimeOfDay(t: real): string {
    Clock(Hours(t), Minutes(t))
  }

  /** The display is "HH:MM" whose two numbers are the hour and the minute. */
  lemma FormatShape(t: real)
    requires 0.0 <= t
    ensures var r := FormatTimeOfDay(t);
      |r| == 5 && r[2] == ':' && IsDigit(r[0]) && IsDigit(r[1]) && IsDigit(r[3]) && IsDigit(r[4])
      && DigitValue(r[0]) * 10 + DigitValue(r[1]) == Hours(t)
      && DigitValue(r[3]) * 10 + DigitValue(r[4]) == Minutes(t)
  {
    ClockShape(Hours(t), Minutes(t));
  }

  /**
   * Within one day the hour and minute together count the whole minutes
   * since midnight: 60·hours + minutes = ⌊1440t⌋.
   */
  lemma MinutesSinceMidnight(t: real)
    requires 0.0 <= t < 1.0
    ensures Hours(t) * 60 + Minutes(t) == Floor(t * 1440.0)
  {
    var h := Floor(t * 24.0);
    JsModFloor(t * 24.0, 24.0);
    assert Floor(t * 24.0 / 24.0) == 0;
    assert Hours(t) == h;
    var x := t * 24.0 * 60.0;
    JsModFloor(x, 60.0);
    assert x / 60.0 == t * 24.0;
    assert JsMod(x, 60.0) == x + (-60 * h) as real;
    FloorShift(x, -60 * h);
    assert x == t * 1440.0;
  }

  lemma FormatMidnight()
    ensures FormatTimeOfDay(0.0) == "00:00"
  {
    JsModFloor(0.0, 24.0);
    JsModFloor(0.0, 60.0);
    assert Hours(0.0) == 0 && Minutes(0.0) == 0;
    TwoDigits(0);
  }

  lemma FormatNoon()
    ensures FormatTimeOfDay(0.5) == "12:00"
  {
    assert Hours(0.5) == 12 by {
      assert 0.5 * 24.0 == 12.0;
      JsModFloor(12.0, 24.0);
    }
    assert Minutes(0.5) == 0 by {
      assert 0.5 * 24.0 * 60.0 == 720.0;
      JsModFloor(720.0, 60.0);
    }
    TwoDigits(12);
    TwoDigits(0);
  }

  lemma HoursPeriodic(t: real)
    requires 0.0 <= t
    ensures Hours(t + 1.0) == Hours(t)
  {
    assert (t + 1.0) * 24.0 == t * 24.0 + (1 as real) * 24.0;
    JsModPeriodic(t * 24.0, 24.0, 1);
  }

  lemma MinutesPeriodic(t: real)
    requires 0.0 <= t
    ensures Minutes(t + 1.0) == Minutes(t)
  {
    assert (t + 1.0) * 24.0 * 60.0 == t * 24.0 * 60.0 + (24 as real) * 60.0;
    JsModPeriodic(t * 24.0 * 60.0, 60.0, 24);
  }

  /** A whole day later the display is the same. */
  lemma FormatPeriodic(t: real)
    requires 0.0 <= t
    ensures FormatTimeOfDay(t + 1.0) == FormatTimeOfDay(t)
  {
    HoursPeriodic(t);
    MinutesPeriodic(t);
  }
}
