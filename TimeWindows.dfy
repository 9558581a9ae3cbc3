/** The window slicing of `analyze_time_correlation` in `server/tools.py`:
    the window size in minutes, and the loop that cuts `[start, end)` into
    consecutive windows, the last one clipped to `end`. Instants and steps
    are in seconds. */
module TimeWindows {
  import opened Common
  import opened PyStr
  import opened TimeUtils

  const DEFAULT_WINDOW_MINUTES: int := 15

  /** `int(window_size[:-1])`, or its ValueError. */
  function IntPrefix(s: string): Result<int, Exc>
    requires |s| >= 1
  {
    var prefix := s[..|s| - 1];
    match ParseInt(prefix)
    case Some(n) => Ok(n)
    case None => Err(ValueError(IntLiteralError(prefix)))
  }

  /** The window size in minutes: `Nm` is N, `Nh` is 60 N, anything else
      15. */
  function WindowMinutes(windowSize: string): Result<int, Exc> {
    if EndsWithChar(windowSize, 'm') then IntPrefix(windowSize)
    else if EndsWithChar(windowSize, 'h') then
      match IntPrefix(windowSize)
      case Ok(n) => Ok(n * 60)
      case Err(e) => Err(e)
    else Ok(DEFAULT_WINDOW_MINUTES)
  }

  /** `N` minutes, `N` hours and any other suffix, the empty size included,
      read as the source reads them; a bad number raises ValueError. */
  lemma WindowMinutesMeaning(n: nat, c: char, windowSize: string)
    ensures WindowMinutes(DecimalString(n) + "m") == Ok(n)
    ensures WindowMinutes(DecimalString(n) + "h") == Ok(n * 60)
    ensures c != 'm' && c != 'h' ==> WindowMinutes(windowSize + [c]) == Ok(DEFAULT_WINDOW_MINUTES)
    ensures WindowMinutes("") == Ok(DEFAULT_WINDOW_MINUTES)
    ensures EndsWithChar(windowSize, 'm') && ParseInt(windowSize[..|windowSize| - 1]).None? ==>
              WindowMinutes(windowSize).Err? && WindowMinutes(windowSize).error.cls == "ValueError"
  {
    IntPrefixDecimal(n, 'm');
    IntPrefixDecimal(n, 'h');
    WindowMinutesDefault(c, windowSize);
  }

  /** The number before a one-character suffix reads back as written. */
  lemma IntPrefixDecimal(n: nat, unit: char)
    ensures IntPrefix(DecimalString(n) + [unit]) == Ok(n)
  {
    ParseDecimal(n);
    var w := DecimalString(n) + [unit];
    assert w[..|w| - 1] == DecimalString(n);
  }

  /** Any suffix but `m` and `h`, and the empty size, read as 15 minutes. */
  lemma WindowMinutesDefault(c: char, windowSize: string)
    ensures c != 'm' && c != 'h' ==> WindowMinutes(windowSize + [c]) == Ok(DEFAULT_WINDOW_MINUTES)
    ensures WindowMinutes("") == Ok(DEFAULT_WINDOW_MINUTES)
  {
  }

  /** The windows the loop appends for a positive step: each starts where
      the previous one's full step ended, and ends a step later or at
      `end`. */
  function Slices(start: int, end: int, step: int): seq<Range>
    requires step > 0
    decreases end - start
  {
    if start >= end then []
    else [Range(start, if start + step < end then start + step else end)] + Slices(start + step, end, step)
  }

  /** The generating loop: `window_end = min(current + delta, end)`,
      append, advance by the step. */
  method GenerateWindows(start: int, end: int, step: int) returns (windows: seq<Range>)
    requires step > 0
    ensures windows == Slices(start, end, step)
  {
    windows := [];
    var current := start;
    while current < end
      invariant windows + Slices(current, end, step) == Slices(start, end, step)
      decreases end - current
    {
      var windowEnd := if current + step < end then current + step else end;
      assert Slices(current, end, step) == [Range(current, windowEnd)] + Slices(current + step, end, step);
      windows := windows + [Range(current, windowEnd)];
      current := current + step;
    }
  }

  /** The number of windows is the length of the range divided by the step,
      rounded up: n - 1 full steps fall short of the range and n steps
      cover it. */
  lemma {:induction false} SlicesCount(start: int, end: int, step: int)
    requires step > 0
    ensures var n := |Slices(start, end, step)|;
      if start >= end then n == 0
      else n >= 1 && (n - 1) * step < end - start <= n * step
    decreases end - start
  {
    if start < end {
      SlicesCount(start + step, end, step);
      var n := |Slices(start + step, end, step)|;
      assert |Slices(start, end, step)| == n + 1;
      assert (n + 1) * step == n * step + step;
      if start + step < end {
        assert (n - 1) * step + step == n * step;
      }
    }
  }

  /** `min(x, end)`. */
  function Clip(x: int, end: int): int {
    if x < end then x else end
  }

  /** The i-th window starts i steps after `start`, before `end`, and ends
      one step later, clipped to `end`. */
  lemma {:induction false} SlicesElements(start: int, end: int, step: int, i: int)
    requires step > 0 && 0 <= i < |Slices(start, end, step)|
    ensures Slices(start, end, step)[i] == Range(start + i * step, Clip(start + (i + 1) * step, end))
    ensures start + i * step < end
    decreases end - start
  {
    if i > 0 {
      SlicesElements(start + step, end, step, i - 1);
      assert start + step + (i - 1) * step == start + i * step;
      assert start + step + i * step == start + (i + 1) * step;
    }
  }

  /** The windows tile the range: the first starts at `start`, each ends
      where the next begins, every window but the last is a full step, the
      last ends at `end`, and together they are as long as the range. */
  lemma SlicesTile(start: int, end: int, step: int)
    requires step > 0 && start < end
    ensures var w := Slices(start, end, step);
      && |w| >= 1
      && w[0].start == start
      && (forall i :: 0 <= i < |w| - 1 ==> w[i].end == w[i + 1].start && w[i].Length() == step)
      && w[|w| - 1].end == end
      && 0 < w[|w| - 1].Length() <= step
      && TotalLength(w) == end - start
  {
    SlicesLength(start, end, step);
    SlicesAdjacent(start, end, step);
    SlicesLastWindow(start, end, step);
    SlicesElements(start, end, step, 0);
  }

  /** Consecutive windows meet, and every window but the last is a full step. */
  lemma SlicesAdjacent(start: int, end: int, step: int)
    requires step > 0
    ensures var w := Slices(start, end, step);
      forall i :: 0 <= i < |w| - 1 ==> w[i].end == w[i + 1].start && w[i].Length() == step
  {
    var w := Slices(start, end, step);
    forall i | 0 <= i < |w| - 1
      ensures w[i].end == w[i + 1].start && w[i].Length() == step
    {
      SlicesElements(start, end, step, i);
      SlicesElements(start, end, step, i + 1);
      assert start + (i + 1) * step - (start + i * step) == step;
    }
  }

  /** The last window ends at `end` and is at most a step long. */
  lemma SlicesLastWindow(start: int, end: int, step: int)
    requires step > 0 && start < end
    ensures var w := Slices(start, end, step);
      |w| >= 1 && w[|w| - 1].end == end && 0 < w[|w| - 1].Length() <= step
  {
    var w := Slices(start, end, step);
    SlicesLast(start, end, step);
    SlicesElements(start, end, step, |w| - 1);
  }

  /** The last window reaches `end`. */
  lemma {:induction false} SlicesLast(start: int, end: int, step: int)
    requires step > 0 && start < end
    ensures var w := Slices(start, end, step); |w| >= 1 && w[|w| - 1].end == end
    decreases end - start
  {
    if start + step < end {
      SlicesLast(start + step, end, step);
    }
  }

  /** The summed lengths of a list of windows. */
  function TotalLength(ws: seq<Range>): int
    decreases |ws|
  {
    if ws == [] then 0 else ws[0].Length() + TotalLength(ws[1..])
  }

  lemma {:induction false} SlicesLength(start: int, end: int, step: int)
    requires step > 0 && start < end
    ensures TotalLength(Slices(start, end, step)) == end - start
    decreases end - start
  {
    var w := Slices(start, end, step);
    assert w[1..] == Slices(start + step, end, step);
    if start + step < end {
      SlicesLength(start + step, end, step);
    }
  }

  // ---------------------------------------------------------------------
  // A non-positive window size

  /** The cursor of the loop as written after k iterations of
      `current_time += window_delta`. */
  function CursorAfter(start: int, step: int, k: nat): int {
    if k == 0 then start else CursorAfter(start, step, k - 1) + step
  }

  /** As written, a window size of zero or fewer minutes never moves the
      cursor forward, so over a non-empty range the loop condition
      `current_time < end_dt` holds after every number of iterations: the
      loop does not terminate. */
  lemma {:induction false} NonPositiveStepNeverEnds(start: int, end: int, step: int, k: nat)
    requires step <= 0 && start < end
    ensures CursorAfter(start, step, k) <= start < end
    decreases k
  {
    if k > 0 {
      NonPositiveStepNeverEnds(start, end, step, k - 1);
    }
  }

  const NON_POSITIVE_WINDOW := "window size must be positive"

  /** The window list with the hang removed: a non-positive step over a
      non-empty range is a ValueError; otherwise the loop's windows. */
  function Windows(start: int, end: int, step: int): Result<seq<Range>, Exc> {
    if start >= end then Ok([])
    else if step <= 0 then Err(ValueError(NON_POSITIVE_WINDOW))
    else Ok(Slices(start, end, step))
  }

  /** The corrected slicing fails exactly on the inputs that hang as
      written, and otherwise yields the length divided by the step, rounded
      up, windows whose lengths add up to the range. */
  lemma WindowsMeaning(start: int, end: int, step: int)
    ensures Windows(start, end, step).Err? <==> step <= 0 && start < end
    ensures start >= end ==> Windows(start, end, step) == Ok([])
    ensures step > 0 ==> Windows(start, end, step) == Ok(Slices(start, end, step))
    ensures step > 0 && start < end ==>
              var n := |Windows(start, end, step).value|;
              && (n - 1) * step < end - start <= n * step
              && TotalLength(Windows(start, end, step).value) == end - start
  {
    if step > 0 && start < end {
      SlicesCount(start, end, step);
      SlicesLength(start, end, step);
    }
  }

  /** Two hours in 15-minute windows: eight full windows. */
  lemma TwoHoursInQuarters()
    ensures |Slices(0, 2 * HOUR, 15 * MINUTE)| == 8
    ensures Slices(0, 2 * HOUR, 15 * MINUTE)[7] == Range(6300, 7200)
  {
    SlicesCount(0, 2 * HOUR, 15 * MINUTE);
    SlicesElements(0, 2 * HOUR, 15 * MINUTE, 7);
  }
}
