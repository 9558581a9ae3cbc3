/** The time helpers of `utils/time_utils.py`: a duration expression such as
    "30m" becomes an interval ending at the single clock reading `now`, and
    ISO timestamps gain or lose Grafana's trailing `Z`.

    Time is a count of seconds; the clock reading is the parameter `now`. */
module TimeUtils {
  import opened Common
  import opened PyStr

  const SECOND: int := 1
  const MINUTE: int := 60
  const HOUR: int := 3600
  const DAY: int := 86400

  /** A `(start, end)` pair of instants, in seconds. */
  datatype Range = Range(start: int, end: int) {
    function Length(): int { end - start }
  }

  /** The seconds in one unit of a suffix `parse_time_range` recognises. */
  function UnitSeconds(c: char): Option<int> {
    if c == 'h' then Some(HOUR)
    else if c == 'm' then Some(MINUTE)
    else if c == 'd' then Some(DAY)
    else if c == 's' then Some(SECOND)
    else None
  }

  /** `now - N units` where N is `int(expr[:-1])`; ValueError when the prefix
      is not an integer. */
  function Back(expr: string, unit: int, now: int): (r: Result<Range, Exc>)
    requires |expr| >= 1
    ensures r.Ok? <==> ParseInt(expr[..|expr| - 1]).Some?
    ensures r.Ok? ==> r.value == Range(now - ParseInt(expr[..|expr| - 1]).value * unit, now)
    ensures r.Err? ==> r.error.cls == "ValueError"
  {
    var prefix := expr[..|expr| - 1];
    match ParseInt(prefix)
    case Some(n) => Ok(Range(now - n * unit, now))
    case None => Err(ValueError(IntLiteralError(prefix)))
  }

  /** `parse_time_range`: the `h`, `m`, `d` and `s` suffixes scale the
      integer prefix; any other last character, and the empty string, fall
      back to one hour. */
  function ParseTimeRange(expr: string, now: int): (r: Result<Range, Exc>)
    ensures r.Ok? ==> r.value.end == now
    ensures expr == [] || UnitSeconds(expr[|expr| - 1]).None? ==> r == Ok(Range(now - HOUR, now))
    ensures expr != [] && UnitSeconds(expr[|expr| - 1]).Some? ==>
              (r.Err? <==> ParseInt(expr[..|expr| - 1]).None?)
  {
    if EndsWithChar(expr, 'h') then Back(expr, HOUR, now)
    else if EndsWithChar(expr, 'm') then Back(expr, MINUTE, now)
    else if EndsWithChar(expr, 'd') then Back(expr, DAY, now)
    else if EndsWithChar(expr, 's') then Back(expr, SECOND, now)
    else Ok(Range(now - HOUR, now))
  }

  /** A well-formed expression `N<unit>` yields a window exactly N units
      long that ends at `now`. */
  lemma {:induction false} ParseTimeRangeScales(n: nat, unit: char, now: int)
    requires UnitSeconds(unit).Some?
    ensures ParseTimeRange(DecimalString(n) + [unit], now) ==
              Ok(Range(now - n * UnitSeconds(unit).value, now))
    ensures n * UnitSeconds(unit).value >= 0
  {
    var expr := DecimalString(n) + [unit];
    var u := UnitSeconds(unit).value;
    assert expr[..|expr| - 1] == DecimalString(n);
    ParseDecimal(n);
    assert Back(expr, u, now) == Ok(Range(now - n * u, now));
    assert EndsWithChar(expr, unit);
    if unit == 'h' {
      assert n * u == n * HOUR;
    } else if unit == 'm' {
      assert n * u == n * MINUTE;
    } else if unit == 'd' {
      assert n * u == n * DAY;
    } else {
      assert n * u == n;
    }
  }

  /** A negative magnitude is accepted by `int()` and puts `start` after
      `end`; a non-negative one never does. */
  lemma StartNotAfterEnd(expr: string, now: int)
    requires ParseTimeRange(expr, now).Ok?
    requires expr != [] && UnitSeconds(expr[|expr| - 1]).Some? ==> ParseInt(expr[..|expr| - 1]).value >= 0
    ensures ParseTimeRange(expr, now).value.start <= ParseTimeRange(expr, now).value.end
  {
  }

  /** `timestamp_to_grafana_format`: the ISO text of the instant with `Z`
      appended. */
  function TimestampToGrafanaFormat(iso: string): (r: string)
    ensures EndsWith(r, "Z") && r[..|r| - 1] == iso
  {
    iso + "Z"
  }

  /** The text `grafana_timestamp_to_datetime` passes on: one trailing `Z`,
      if any, removed. The parse by `datetime.fromisoformat` that follows is
      not modelled. */
  function GrafanaTimestampToIso(ts: string): (r: string)
    ensures EndsWith(ts, "Z") ==> r + "Z" == ts
    ensures !EndsWith(ts, "Z") ==> r == ts
  {
    if EndsWith(ts, "Z") then ts[..|ts| - 1] else ts
  }

  /** Converting to Grafana's format and back recovers the ISO text, even
      when the text itself already ends in `Z`. */
  lemma GrafanaRoundTrip(iso: string)
    ensures GrafanaTimestampToIso(TimestampToGrafanaFormat(iso)) == iso
  {
  }
}
