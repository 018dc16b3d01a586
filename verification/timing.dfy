/** timing.py: elapsed-time strings with an automatically chosen unit, and
    progress strings made of the elapsed time and an iteration percentage.
    The clock `time.perf_counter()` is a parameter `now`; rendering a real
    with a fixed number of decimals is a parameter `fixed` (for the time
    strings) or `fixed1` (for the one-decimal percentage). */
module Timing {
  import opened Common

  // ---------------------------------------------------------------------
  // time_string and get_elapsed
  // ---------------------------------------------------------------------

  datatype Unit = Ns | Us | Ms | S | M | H
  {
    function Name(): string
    {
      match this
      case Ns => "ns"
      case Us => "µs"
      case Ms => "ms"
      case S => "s"
      case M => "m"
      case H => "h"
    }

    /** Position on the ladder, smallest unit first. */
    function Rank(): nat
    {
      match this
      case Ns => 0
      case Us => 1
      case Ms => 2
      case S => 3
      case M => 4
      case H => 5
    }

    /** Decimals shown: six for nanoseconds, three otherwise. */
    function Decimals(): nat
    {
      if this == Ns then 6 else 3
    }
  }

  /** The unit chosen for a time difference in seconds: the ladder is
      climbed from the smallest unit, so negative differences get
      nanoseconds. */
  function UnitFor(delta: real): (u: Unit)
    ensures u == Ns <==> delta < 0.000001
    ensures u == Us <==> 0.000001 <= delta < 0.001
    ensures u == Ms <==> 0.001 <= delta < 1.0
    ensures u == S <==> 1.0 <= delta < 60.0
    ensures u == M <==> 60.0 <= delta < 3600.0
    ensures u == H <==> 3600.0 <= delta
  {
    if delta < 0.000001 then Ns
    else if delta < 0.001 then Us
    else if delta < 1.0 then Ms
    else if delta < 60.0 then S
    else if delta < 3600.0 then M
    else H
  }

  /** A longer time never gets a smaller unit. */
  lemma UnitForIsMonotone(d1: real, d2: real)
    requires d1 <= d2
    ensures UnitFor(d1).Rank() <= UnitFor(d2).Rank()
  {
  }

  /** The time difference expressed in unit `u`. */
  function Scaled(delta: real, u: Unit): real
  {
    match u
    case Ns => delta * 1000000000.0
    case Us => delta * 1000000.0
    case Ms => delta * 1000.0
    case S => delta
    case M => delta / 60.0
    case H => delta / 3600.0
  }

  /** In the unit the ladder chooses, a non-negative difference reads as a
      number from 1 up to the next unit's size (below 1 only for
      nanoseconds), so the chosen unit is the largest that keeps it at 1 or
      more. */
  lemma ScaledIsInRange(delta: real)
    requires delta >= 0.0
    ensures var u, x := UnitFor(delta), Scaled(delta, UnitFor(delta));
      && (u == Ns ==> 0.0 <= x < 1000.0)
      && (u == Us ==> 1.0 <= x < 1000.0)
      && (u == Ms ==> 1.0 <= x < 1000.0)
      && (u == S ==> 1.0 <= x < 60.0)
      && (u == M ==> 1.0 <= x < 60.0)
      && (u == H ==> 1.0 <= x)
  {
  }

  /** `f"{delta:.{decimals}f} {unit}"` after the unit is chosen. */
  function FormatDelta(delta: real, fixed: (real, nat) -> string): (s: string)
    ensures var u := UnitFor(delta);
      && |s| > |u.Name()|
      && s[|s| - |u.Name()| - 1..] == " " + u.Name()
      && s[..|s| - |u.Name()| - 1] == fixed(Scaled(delta, u), u.Decimals())
  {
    var u := UnitFor(delta);
    fixed(Scaled(delta, u), u.Decimals()) + " " + u.Name()
  }

  /** The module's time reference `t0`. */
  class Timer {
    var t0: real

    /** Importing the module marks the reference point. */
    constructor (now: real)
      ensures t0 == now
    {
      t0 := now;
    }

    /** timing.py `reset`: the reference point becomes the current time. */
    method Reset(now: real)
      modifies this
      ensures t0 == now
    {
      t0 := now;
    }

    /** timing.py `time_string`: the time from `startTime` (the reference
        point when absent) to `endTime` (the current time when absent). */
    function TimeString(startTime: Option<real>, endTime: Option<real>, now: real,
                        fixed: (real, nat) -> string): (s: string)
      reads this
      ensures var delta := (if endTime.Some? then endTime.value else now)
                           - (if startTime.Some? then startTime.value else t0);
        s == FormatDelta(delta, fixed)
    {
      var endT := if endTime.Some? then endTime.value else now;
      var startT := if startTime.Some? then startTime.value else t0;
      FormatDelta(endT - startT, fixed)
    }
  }

  /** timing.py `get_elapsed`: "Took ", the elapsed time in its unit, then
      " for " and the message. */
  function GetElapsed(message: string, startTime: real, endTime: Option<real>, now: real,
                      fixed: (real, nat) -> string): (s: string)
    ensures |s| > 10 + |message|
    ensures s[..5] == "Took " && s[|s| - |message| - 5..] == " for " + message
    ensures s[5..|s| - |message| - 5]
            == FormatDelta((if endTime.Some? then endTime.value else now) - startTime, fixed)
  {
    var t := FormatDelta((if endTime.Some? then endTime.value else now) - startTime, fixed);
    var s := "Took " + t + " for " + message;
    assert s[..5] == "Took " && s[5..5 + |t|] == t && s[5 + |t|..] == " for " + message;
    s
  }

  /** After `reset`, `time_string()` measures from the moment of the reset. */
  lemma TimeStringAfterReset(timer: Timer, resetAt: real, now: real, fixed: (real, nat) -> string)
    requires timer.t0 == resetAt
    ensures timer.TimeString(None, None, now, fixed) == FormatDelta(now - resetAt, fixed)
  {
  }

  /** `get_elapsed` wraps `time_string` of the same times, whatever the
      reference point. */
  lemma GetElapsedWrapsTimeString(timer: Timer, message: string, startTime: real,
                                  endTime: Option<real>, now: real, fixed: (real, nat) -> string)
    ensures GetElapsed(message, startTime, endTime, now, fixed)
            == "Took " + timer.TimeString(Some(startTime), endTime, now, fixed) + " for " + message
  {
  }

  // ---------------------------------------------------------------------
  // progress_data
  // ---------------------------------------------------------------------

  /** Elapsed time as whole hours, minutes, seconds and milliseconds. */
  datatype Elapsed = Elapsed(hours: int, minutes: int, seconds: int, millis: int)

  /** Python's `int` of a real: truncation toward zero. */
  function Trunc(x: real): (n: int)
    ensures x >= 0.0 ==> n == x.Floor
    ensures x < 0.0 ==> n == -((-x).Floor)
  {
    if x >= 0.0 then x.Floor else -((-x).Floor)
  }

  /** The decomposition of `progress_data`: `divmod` by 3600 and by 60,
      which floor, and milliseconds from the fraction `e - int(e)`. */
  function Decompose(e: real): (t: Elapsed)
    ensures t.hours * 3600 + t.minutes * 60 + t.seconds == e.Floor
    ensures 0 <= t.minutes < 60 && 0 <= t.seconds < 60
    ensures e >= 0.0 ==> t.hours >= 0 && 0 <= t.millis <= 999
    ensures e < 0.0 ==> -999 <= t.millis <= 0
  {
    var h := (e / 3600.0).Floor;
    var rest := e - 3600.0 * (h as real);
    var m := (rest / 60.0).Floor;
    var s := rest - 60.0 * (m as real);
    DivModBounds(e, h, m);
    Elapsed(h, m, Trunc(s), Trunc(1000.0 * (e - Trunc(e) as real)))
  }

  /** The steps of the decomposition stay in range. */
  lemma DivModBounds(e: real, h: int, m: int)
    requires h == (e / 3600.0).Floor && m == ((e - 3600.0 * (h as real)) / 60.0).Floor
    ensures 0.0 <= e - 3600.0 * (h as real) < 3600.0
    ensures 0 <= m < 60
    ensures 0.0 <= e - 3600.0 * (h as real) - 60.0 * (m as real) < 60.0
    ensures h * 3600 + m * 60 + (e - 3600.0 * (h as real) - 60.0 * (m as real)).Floor == e.Floor
  {
  }

  /** For a non-negative time the milliseconds are those of the fraction of
      a second, cut off: the time lies in the millisecond they name. */
  lemma MillisAreTruncated(e: real)
    requires e >= 0.0
    ensures var ms := Decompose(e).millis;
      (e.Floor as real) + (ms as real) / 1000.0 <= e < (e.Floor as real) + ((ms + 1) as real) / 1000.0
  {
  }

  /** timing.py `progress_data` at the current time `now`. The percentage
      divides by `total_iterations`, so a total of 0 raises. */
  function ProgressData(startTime: Option<real>, iteration: Option<int>, total: Option<int>, now: real)
    : (r: Result<(Option<Elapsed>, Option<real>)>)
    ensures r.Err? <==> iteration.Some? && total.Some? && total.value == 0
    ensures r.Err? ==> r.error == ZeroDivisionError
    ensures r.Ok? ==> (r.value.0.Some? <==> startTime.Some?)
    ensures r.Ok? && startTime.Some? ==> r.value.0 == Some(Decompose(now - startTime.value))
    ensures r.Ok? ==> (r.value.1.Some? <==> iteration.Some? && total.Some?)
    ensures r.Ok? && r.value.1.Some? ==>
      r.value.1.value * (total.value as real) == 100.0 * ((iteration.value + 1) as real)
  {
    var elapsed := if startTime.Some? then Some(Decompose(now - startTime.value)) else None;
    if iteration.Some? && total.Some? then
      if total.value == 0 then Err(ZeroDivisionError)
      else Ok((elapsed, Some(100.0 * ((iteration.value + 1) as real) / (total.value as real))))
    else Ok((elapsed, None))
  }

  /** With iteration indices running over `[0, total)`, the percentage is
      positive, at most 100, and exactly 100 at the last index. */
  lemma ProgressIsPercentage(startTime: Option<real>, iteration: int, total: int, now: real)
    requires 0 <= iteration < total
    ensures var r := ProgressData(startTime, Some(iteration), Some(total), now);
      && r.Ok? && 0.0 < r.value.1.value <= 100.0
      && (iteration == total - 1 <==> r.value.1.value == 100.0)
  {
    var p := ProgressData(startTime, Some(iteration), Some(total), now).value.1.value;
    assert p * (total as real) == 100.0 * ((iteration + 1) as real);
    assert (100.0 - p) * (total as real) == 100.0 * ((total - iteration - 1) as real);
    if p == 100.0 {
      assert (iteration + 1) as real == total as real;
    }
  }

  // ---------------------------------------------------------------------
  // Decimal rendering of integers
  // ---------------------------------------------------------------------

  function DigitChar(d: nat): (ch: char)
    requires d < 10
    ensures '0' <= ch <= '9'
  {
    ('0' as int + d) as char
  }

  predicate AllDigits(s: string)
  {
    forall i :: 0 <= i < |s| ==> '0' <= s[i] <= '9'
  }

  /** The decimal digits of `n`, without leading zeros. */
  function Digits(n: nat): (s: string)
    ensures |s| > 0 && AllDigits(s)
  {
    if n < 10 then [DigitChar(n)] else Digits(n / 10) + [DigitChar(n % 10)]
  }

  /** `k` zeros. */
  function Zeros(k: nat): (s: string)
    ensures |s| == k && forall i :: 0 <= i < k ==> s[i] == '0'
  {
    if k == 0 then "" else Zeros(k - 1) + "0"
  }

  /** `f"{n:0{w}d}"` of a non-negative number: zero-padded to width `w`. */
  function ZeroPad(n: nat, w: nat): (s: string)
    ensures AllDigits(s)
    ensures |s| == if |Digits(n)| < w then w else |Digits(n)|
  {
    (if |Digits(n)| < w then Zeros(w - |Digits(n)|) else "") + Digits(n)
  }

  /** `f"{n:0{w}d}"`: a minus sign counts towards the width. */
  function Pad(n: int, w: nat): string
  {
    if n < 0 then "-" + ZeroPad(-n, if w > 0 then w - 1 else 0) else ZeroPad(n, w)
  }

  /** `str(n)`. */
  function IntString(n: int): string
  {
    if n < 0 then "-" + Digits(-n) else Digits(n)
  }

  /** The number a string of decimal digits spells. */
  function DecimalValue(s: string): nat
    requires AllDigits(s)
  {
    if s == [] then 0 else 10 * DecimalValue(s[..|s| - 1]) + (s[|s| - 1] as int - '0' as int)
  }

  lemma {:induction false} DigitsRoundTrip(n: nat)
    ensures DecimalValue(Digits(n)) == n
    decreases n
  {
    if n >= 10 {
      DigitsRoundTrip(n / 10);
      var s := Digits(n);
      assert s[..|s| - 1] == Digits(n / 10);
    }
  }

  lemma {:induction false} LeadingZerosAddNothing(k: nat, s: string)
    requires AllDigits(s)
    ensures AllDigits(Zeros(k) + s) && DecimalValue(Zeros(k) + s) == DecimalValue(s)
    decreases |s|, k
  {
    if s == [] {
      if k > 0 {
        assert Zeros(k) + s == Zeros(k - 1) + "0";
        assert (Zeros(k - 1) + "0")[..k - 1] == Zeros(k - 1) + [];
        LeadingZerosAddNothing(k - 1, []);
      }
    } else {
      var t := Zeros(k) + s;
      assert t[..|t| - 1] == Zeros(k) + s[..|s| - 1];
      LeadingZerosAddNothing(k, s[..|s| - 1]);
    }
  }

  /** A zero-padded number reads back as the number. */
  lemma ZeroPadRoundTrip(n: nat, w: nat)
    ensures DecimalValue(ZeroPad(n, w)) == n
  {
    var d := Digits(n);
    DigitsRoundTrip(n);
    if |d| < w {
      assert ZeroPad(n, w) == Zeros(w - |d|) + d;
      LeadingZerosAddNothing(w - |d|, d);
    } else {
      assert ZeroPad(n, w) == "" + d;
      assert "" + d == d;
    }
  }

  // ---------------------------------------------------------------------
  // progress_string
  // ---------------------------------------------------------------------

  /** Python truth of an optional number or string: `None`, 0 and "" are
      false. */
  predicate TruthyReal(x: Option<real>)
  {
    x.Some? && x.value != 0.0
  }

  predicate TruthyString(x: Option<string>)
  {
    x.Some? && x.value != ""
  }

  /** `f"{h:02d}:{m:02d}:{s:02d}"`. */
  function Clock(t: Elapsed): string
  {
    Pad(t.hours, 2) + ":" + Pad(t.minutes, 2) + ":" + Pad(t.seconds, 2)
  }

  /** The time part: the clock, then `.` and three millisecond digits when
      asked for. */
  function TimePart(t: Elapsed, milliseconds: bool): string
  {
    Clock(t) + (if milliseconds then "." + Pad(t.millis, 3) else "")
  }

  /** `f"{progress:.1f} % ({iteration} / {total_iterations})"`. */
  function ProgressPart(progress: real, iteration: int, total: int, fixed1: real -> string): string
  {
    fixed1(progress) + " % (" + IntString(iteration) + " / " + IntString(total) + ")"
  }

  /** The string `progress_string` returns for the data `progress_data`
      gave: the time part when there is an elapsed time, the progress part
      when the percentage is non-zero, the separator only between the two,
      and the postfix only after something. */
  function ProgressText(elapsed: Option<Elapsed>, progress: Option<real>, iteration: int, total: int,
                        separator: Option<string>, postfix: Option<string>, milliseconds: bool,
                        fixed1: real -> string): string
  {
    TimeText(elapsed, milliseconds)
      + SeparatorText(elapsed, progress, separator)
      + ProgressPieceText(progress, iteration, total, fixed1)
      + PostfixText(elapsed, progress, postfix)
  }

  function TimeText(elapsed: Option<Elapsed>, milliseconds: bool): string
  {
    if elapsed.Some? then TimePart(elapsed.value, milliseconds) else ""
  }

  function SeparatorText(elapsed: Option<Elapsed>, progress: Option<real>, separator: Option<string>): string
  {
    if elapsed.Some? && TruthyReal(progress) && TruthyString(separator) then separator.value else ""
  }

  function ProgressPieceText(progress: Option<real>, iteration: int, total: int, fixed1: real -> string): string
  {
    if TruthyReal(progress) then ProgressPart(progress.value, iteration, total, fixed1) else ""
  }

  function PostfixText(elapsed: Option<Elapsed>, progress: Option<real>, postfix: Option<string>): string
  {
    if (elapsed.Some? || TruthyReal(progress)) && TruthyString(postfix) then postfix.value else ""
  }

  /** The pieces written one after another, as `"".join(parts)`. */
  function Concat(parts: seq<string>): string
  {
    if parts == [] then "" else Concat(parts[..|parts| - 1]) + parts[|parts| - 1]
  }

  lemma ConcatAppend(parts: seq<string>, p: string)
    ensures Concat(parts + [p]) == Concat(parts) + p
  {
    assert (parts + [p])[..|parts|] == parts;
  }

  /** timing.py `progress_string` at the current time `now`: the parts are
      collected in a list and joined. */
  method ProgressString(now: real, fixed1: real -> string, startTime: Option<real>,
                        iteration: Option<int> := None, total: Option<int> := None,
                        separator: Option<string> := Some(" - "), postfix: Option<string> := None,
                        milliseconds: bool := true)
    returns (r: Result<string>)
    ensures r.Err? <==> ProgressData(startTime, iteration, total, now).Err?
    ensures r.Err? ==> r.error == ZeroDivisionError
    ensures r.Ok? ==>
      var data := ProgressData(startTime, iteration, total, now).value;
      r.value == ProgressText(data.0, data.1,
                              if iteration.Some? then iteration.value else 0,
                              if total.Some? then total.value else 0,
                              separator, postfix, milliseconds, fixed1)
  {
    var data := ProgressData(startTime, iteration, total, now);
    if data.Err? {
      return Err(data.error);
    }
    var (elapsed, progress) := data.value;
    var text := AssembleParts(elapsed, progress,
                              if iteration.Some? then iteration.value else 0,
                              if total.Some? then total.value else 0,
                              separator, postfix, milliseconds, fixed1);
    return Ok(text);
  }

  /** The part of `progress_string` after `progress_data`: the parts are
      appended to a list one by one and joined. */
  method AssembleParts(elapsed: Option<Elapsed>, progress: Option<real>, iteration: int, total: int,
                       separator: Option<string>, postfix: Option<string>, milliseconds: bool,
                       fixed1: real -> string)
    returns (text: string)
    ensures text == ProgressText(elapsed, progress, iteration, total, separator, postfix, milliseconds, fixed1)
  {
    var parts := TimeParts(elapsed, milliseconds);
    parts := AppendProgress(parts, elapsed, progress, iteration, total, separator, fixed1);
    parts := AppendPostfix(parts, elapsed, progress, postfix);
    text := Concat(parts);
  }

  /** `parts = []`, then `if elapsed_time:` appends the clock and, when
      asked for, the milliseconds. */
  method TimeParts(elapsed: Option<Elapsed>, milliseconds: bool) returns (parts: seq<string>)
    ensures Concat(parts) == TimeText(elapsed, milliseconds)
    ensures |parts| > 0 <==> elapsed.Some?
  {
    parts := [];
    if elapsed.Some? {
      var clock := Clock(elapsed.value);
      parts := parts + [clock];
      if milliseconds {
        var ms := "." + Pad(elapsed.value.millis, 3);
        parts := parts + [ms];
        ConcatOfTwo(clock, ms);
        assert parts == [clock, ms];
      } else {
        ConcatOfTwo(clock, "");
        assert Concat([clock]) == clock;
      }
    }
  }

  lemma ConcatOfTwo(a: string, b: string)
    ensures Concat([a]) == a && Concat([a, b]) == a + b
  {
    assert [a, b][..1] == [a];
  }

  /** `if progress:` appends the separator, when there is a time part
      before it and the separator is not empty, and the progress part. */
  method AppendProgress(parts: seq<string>, elapsed: Option<Elapsed>, progress: Option<real>,
                        iteration: int, total: int, separator: Option<string>, fixed1: real -> string)
    returns (parts': seq<string>)
    requires |parts| > 0 <==> elapsed.Some?
    ensures Concat(parts') == Concat(parts) + SeparatorText(elapsed, progress, separator)
                              + ProgressPieceText(progress, iteration, total, fixed1)
    ensures |parts'| > 0 <==> elapsed.Some? || TruthyReal(progress)
  {
    parts' := parts;
    if !TruthyReal(progress) {
      assert SeparatorText(elapsed, progress, separator) == "";
      assert ProgressPieceText(progress, iteration, total, fixed1) == "";
      return;
    }
    if |parts'| > 0 && TruthyString(separator) {
      parts' := Append(parts', separator.value);
    }
    assert Concat(parts') == Concat(parts) + SeparatorText(elapsed, progress, separator);
    var part := ProgressPart(progress.value, iteration, total, fixed1);
    parts' := Append(parts', part);
  }

  /** `parts.append(p)`. */
  method Append(parts: seq<string>, p: string) returns (parts': seq<string>)
    ensures |parts'| == |parts| + 1 && Concat(parts') == Concat(parts) + p
  {
    ConcatAppend(parts, p);
    parts' := parts + [p];
  }

  /** `if parts and postfix:` appends the postfix. */
  method AppendPostfix(parts: seq<string>, elapsed: Option<Elapsed>, progress: Option<real>,
                       postfix: Option<string>)
    returns (parts': seq<string>)
    requires |parts| > 0 <==> elapsed.Some? || TruthyReal(progress)
    ensures Concat(parts') == Concat(parts) + PostfixText(elapsed, progress, postfix)
  {
    parts' := parts;
    if |parts'| > 0 && TruthyString(postfix) {
      parts' := Append(parts', postfix.value);
    }
  }

  /** The result is empty exactly when there is neither an elapsed time nor
      a non-zero percentage; a postfix alone is never written. */
  lemma EmptyWithoutParts(elapsed: Option<Elapsed>, progress: Option<real>, iteration: int, total: int,
                          separator: Option<string>, postfix: Option<string>, milliseconds: bool,
                          fixed1: real -> string)
    ensures ProgressText(elapsed, progress, iteration, total, separator, postfix, milliseconds, fixed1) == ""
            <==> elapsed.None? && !TruthyReal(progress)
  {
    if elapsed.Some? {
      assert |Clock(elapsed.value)| > 0 by {
        assert Clock(elapsed.value) == Pad(elapsed.value.hours, 2) + ":" + Pad(elapsed.value.minutes, 2) + ":" + Pad(elapsed.value.seconds, 2);
      }
    }
  }

  /** Without an elapsed time no separator is written: the text is the
      progress part, then the postfix. */
  lemma NoSeparatorWithoutTime(progress: real, iteration: int, total: int,
                               separator: Option<string>, postfix: Option<string>, milliseconds: bool,
                               fixed1: real -> string)
    requires progress != 0.0
    ensures ProgressText(None, Some(progress), iteration, total, separator, postfix, milliseconds, fixed1)
            == ProgressPart(progress, iteration, total, fixed1) + (if TruthyString(postfix) then postfix.value else "")
  {
    var p := ProgressPart(progress, iteration, total, fixed1);
    assert TimeText(None, milliseconds) + SeparatorText(None, Some(progress), separator) == "";
    assert "" + p == p;
  }

  /** For an elapsed time of less than 100 hours, the clock is eight
      characters `HH:MM:SS` whose fields read back as the hours, minutes
      and seconds. */
  lemma ClockLayout(t: Elapsed)
    requires 0 <= t.hours < 100 && 0 <= t.minutes < 60 && 0 <= t.seconds < 60
    ensures var c := Clock(t);
      && |c| == 8 && c[2] == ':' && c[5] == ':'
      && AllDigits(c[0..2]) && DecimalValue(c[0..2]) == t.hours
      && AllDigits(c[3..5]) && DecimalValue(c[3..5]) == t.minutes
      && AllDigits(c[6..8]) && DecimalValue(c[6..8]) == t.seconds
  {
    TwoDigitField(t.hours);
    TwoDigitField(t.minutes);
    TwoDigitField(t.seconds);
    ThreeFields(Pad(t.hours, 2), Pad(t.minutes, 2), Pad(t.seconds, 2));
  }

  /** A number below 100 pads to two digits that read back as it. */
  lemma TwoDigitField(n: nat)
    requires n < 100
    ensures |Pad(n, 2)| == 2 && AllDigits(Pad(n, 2)) && DecimalValue(Pad(n, 2)) == n
  {
    assert |Digits(n)| <= 2;
    ZeroPadRoundTrip(n, 2);
  }

  lemma ThreeFields(a: string, b: string, c: string)
    requires |a| == 2 && |b| == 2 && |c| == 2
    ensures var s := a + ":" + b + ":" + c;
      && |s| == 8 && s[2] == ':' && s[5] == ':'
      && s[0..2] == a && s[3..5] == b && s[6..8] == c
  {
    var s := a + ":" + b + ":" + c;
    assert s == a + [':'] + b + [':'] + c;
  }
}
