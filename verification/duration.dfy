/** Duration conversion of the repetition bot's command line.

The three positional durations are given in one unit chosen by the flags
`-s`, `-m` and `-h`. The flags are not mutually exclusive: they are tested in
a fixed order, minutes first, then hours, and otherwise the value is taken as
seconds. The seconds flag itself is never consulted.

Python floats are modelled as `real`: no rounding happens here.
 */
module Duration {

  /** The unit a duration is expressed in. */
  datatype Unit = Seconds | Minutes | Hours

  /** How many seconds one of `u` lasts. */
  function SecondsPer(u: Unit): (k: real)
    ensures k >= 1.0
    ensures k == 1.0 <==> u == Seconds
    ensures k == 60.0 <==> u == Minutes
    ensures k == 3600.0 <==> u == Hours
  {
    match u
    case Seconds => 1.0
    case Minutes => 60.0
    case Hours => 3600.0
  }

  /** The unit the flags select: minutes win over hours, and with neither set
      the value is in seconds whatever the seconds flag says. */
  function SelectedUnit(seconds: bool, minutes: bool, hours: bool): (u: Unit)
    ensures u == Minutes <==> minutes
    ensures u == Hours <==> !minutes && hours
    ensures u == Seconds <==> !minutes && !hours
  {
    if minutes then Minutes
    else if hours then Hours
    else Seconds
  }

  /** `convert_duration`: the duration, read in the selected unit, as seconds. */
  function ConvertDuration(duration: real, seconds: bool, minutes: bool, hours: bool): (r: real)
    ensures r == duration * SecondsPer(SelectedUnit(seconds, minutes, hours))
    ensures r == 0.0 <==> duration == 0.0
    ensures r > 0.0 <==> duration > 0.0
    ensures r < 0.0 <==> duration < 0.0
  {
    if minutes then duration * 60.0
    else if hours then duration * 3600.0
    else duration
  }

  /** The inverse of the conversion: a number of seconds read back in the unit
      the flags select. */
  function FromSeconds(secs: real, seconds: bool, minutes: bool, hours: bool): (d: real)
    ensures d * SecondsPer(SelectedUnit(seconds, minutes, hours)) == secs
  {
    secs / SecondsPer(SelectedUnit(seconds, minutes, hours))
  }

  /** With the minutes flag set the result is sixty times the duration, whatever
      the other two flags are. */
  lemma MinutesTakePrecedence(duration: real, seconds: bool, hours: bool)
    ensures ConvertDuration(duration, seconds, true, hours) == duration * 60.0
  {
  }

  /** Without minutes, the hours flag multiplies by 3600. */
  lemma HoursWithoutMinutes(duration: real, seconds: bool)
    ensures ConvertDuration(duration, seconds, false, true) == duration * 3600.0
  {
  }

  /** Without minutes or hours the duration is already in seconds. */
  lemma SecondsByDefault(duration: real, seconds: bool)
    ensures ConvertDuration(duration, seconds, false, false) == duration
  {
  }

  /** The seconds flag never changes the result. */
  lemma SecondsFlagIgnored(duration: real, minutes: bool, hours: bool)
    ensures ConvertDuration(duration, true, minutes, hours) == ConvertDuration(duration, false, minutes, hours)
  {
  }

  /** The conversion preserves the order of durations in both directions, so
      it is also injective. */
  lemma ConversionPreservesOrder(a: real, b: real, seconds: bool, minutes: bool, hours: bool)
    ensures a < b <==> ConvertDuration(a, seconds, minutes, hours) < ConvertDuration(b, seconds, minutes, hours)
    ensures a == b <==> ConvertDuration(a, seconds, minutes, hours) == ConvertDuration(b, seconds, minutes, hours)
  {
  }

  /** Converting to seconds and reading the result back in the same unit gives
      the original duration; the other way round too. */
  lemma ConversionRoundTrip(duration: real, secs: real, seconds: bool, minutes: bool, hours: bool)
    ensures FromSeconds(ConvertDuration(duration, seconds, minutes, hours), seconds, minutes, hours) == duration
    ensures ConvertDuration(FromSeconds(secs, seconds, minutes, hours), seconds, minutes, hours) == secs
  {
  }
}
