/** The logger's time renderings: the log's clock time, the cue-file timestamp and the total
    duration, each with a reader that recovers the millisecond count. */
module TimeFormat {
  import opened Wrappers
  import opened Text

  /** `n.toString().padStart(width, '0')`. */
  function Pad(n: int, width: nat): string
  {
    PadStart(IntToString(n), width, '0')
  }

  /** `formatTime`: minutes (at least two digits, unbounded), seconds and milliseconds. Divisions
      are `Math.floor`, remainders are JavaScript's `%`. */
  function FormatTime(ms: int): string
  {
    var totalSeconds := ms / 1000;
    Pad(totalSeconds / 60, 2) + ":" + Pad(JsRem(totalSeconds, 60), 2) + "." + Pad(JsRem(ms, 1000), 3)
  }

  /** `formatVTTTime` as written: a constant hour field in front of `formatTime`. */
  function FormatVttTimeAsWritten(ms: int): string
  {
    "00:" + FormatTime(ms)
  }

  /** The cue timestamp with a real hour field: hours, then minutes and seconds below 60. */
  function FormatVttTime(ms: int): string
  {
    var totalSeconds := ms / 1000;
    Pad(totalSeconds / 3600, 2) + ":" + Pad(JsRem(totalSeconds / 60, 60), 2) + ":"
      + Pad(JsRem(totalSeconds, 60), 2) + "." + Pad(JsRem(ms, 1000), 3)
  }

  /** `formatDuration`: "Mm Ss Rms" from one minute on, "Ss Rms" below. */
  function FormatDuration(ms: int): string
  {
    var seconds := ms / 1000;
    var rest := JsRem(ms, 1000);
    if seconds >= 60 then
      IntToString(seconds / 60) + "m " + IntToString(JsRem(seconds, 60)) + "s " + IntToString(rest) + "ms"
    else
      IntToString(seconds) + "s " + IntToString(rest) + "ms"
  }

  /** A field of exactly `width` decimal digits. */
  predicate DigitField(s: string, width: nat)
  {
    |s| == width && AllDigits(s)
  }

  /** Reads "SS.mmm" with seconds below 60. */
  function ParseSecMs(t: string): Option<nat>
  {
    if |t| == 6 && t[2] == '.' && DigitField(t[..2], 2) && DigitField(t[3..], 3) && DigitsValue(t[..2]) < 60
    then Some(DigitsValue(t[..2]) * 1000 + DigitsValue(t[3..]))
    else None
  }

  /** Reads a log clock time: two or more digits of minutes, ':', then "SS.mmm". */
  function ParseLogTime(s: string): Option<nat>
  {
    if |s| >= 9 && s[|s| - 7] == ':' && AllDigits(s[..|s| - 7]) then
      match ParseSecMs(s[|s| - 6..])
      case Some(v) => Some(DigitsValue(s[..|s| - 7]) * 60000 + v)
      case None => None
    else None
  }

  /** Reads a timestamp as section 4.1 of the W3C WebVTT specification defines it: an optional
      hour field of two or more digits and ':', then minutes (00 to 59), ':', seconds (00 to 59),
      '.', and three digits of milliseconds. */
  function ParseVttTimestamp(s: string): Option<nat>
  {
    if |s| >= 12 && s[|s| - 10] == ':' && s[|s| - 7] == ':' && AllDigits(s[..|s| - 10])
       && DigitField(s[|s| - 9..|s| - 7], 2) && DigitsValue(s[|s| - 9..|s| - 7]) < 60 then
      match ParseSecMs(s[|s| - 6..])
      case Some(v) => Some(DigitsValue(s[..|s| - 10]) * 3600000 + DigitsValue(s[|s| - 9..|s| - 7]) * 60000 + v)
      case None => None
    else if |s| == 9 && s[2] == ':' && DigitField(s[..2], 2) && DigitsValue(s[..2]) < 60 then
      match ParseSecMs(s[3..])
      case Some(v) => Some(DigitsValue(s[..2]) * 60000 + v)
      case None => None
    else None
  }

  /** Reads a total duration: "Mm Ss Rms" or "Ss Rms", seconds below 60 and milliseconds below
      1000. */
  function ParseDuration(s: string): Option<nat>
  {
    DurationFields(Split(s, ' '))
  }

  function DurationFields(words: seq<string>): Option<nat>
  {
    if |words| == 3 then
      match (UnitValue(words[0], "m"), UnitValue(words[1], "s"), UnitValue(words[2], "ms"))
      case (Some(m), Some(sec), Some(r)) =>
        if sec < 60 && r < 1000 then Some(m * 60000 + sec * 1000 + r) else None
      case _ => None
    else if |words| == 2 then
      match (UnitValue(words[0], "s"), UnitValue(words[1], "ms"))
      case (Some(sec), Some(r)) => if sec < 60 && r < 1000 then Some(sec * 1000 + r) else None
      case _ => None
    else None
  }

  /** A number directly followed by its unit. */
  function UnitValue(word: string, unit: string): Option<nat>
  {
    if EndsWith(word, unit) then ParseNat(word[..|word| - |unit|]) else None
  }

  /** A padded number below `10^width` takes exactly `width` characters and reads back. */
  lemma PadExact(n: nat, width: nat)
    requires width > 0 && n < Pow10(width)
    ensures |Pad(n, width)| == width
    ensures AllDigits(Pad(n, width)) && DigitsValue(Pad(n, width)) == n
  {
    NatToStringShort(n, width);
    PaddedNatValue(n, width);
  }

  /** Any padded number is at least `width` digits and reads back. */
  lemma PadValue(n: nat, width: nat)
    ensures |Pad(n, width)| >= width
    ensures AllDigits(Pad(n, width)) && DigitsValue(Pad(n, width)) == n
  {
    PaddedNatValue(n, width);
  }

  lemma AppendThree(p: string, a: string, b: string, c: string)
    ensures p + a + b + c == p + (a + b + c)
  {
  }

  /** Reading "SS.mmm" from any two and three digit fields. */
  lemma SecMsOf(sec: string, r: string, v: nat)
    requires DigitField(sec, 2) && DigitsValue(sec) < 60 && DigitField(r, 3)
    requires DigitsValue(sec) * 1000 + DigitsValue(r) == v
    ensures ParseSecMs(sec + "." + r) == Some(v)
  {
    var t := sec + "." + r;
    assert t[..2] == sec;
    assert t[3..] == r;
  }

  /** Reading minutes in front of a well-formed "SS.mmm". */
  lemma LogTimeOf(m: string, t: string, v: nat, total: nat)
    requires |m| >= 2 && AllDigits(m) && ParseSecMs(t) == Some(v)
    requires DigitsValue(m) * 60000 + v == total
    ensures ParseLogTime(m + ":" + t) == Some(total)
  {
    LogSlices(m + ":" + t, m, t);
    LogFromSlices(m + ":" + t, m, t, v, total);
  }

  /** Where the fields of "M:SS.mmm" sit, counted from the end. */
  lemma LogSlices(s: string, m: string, t: string)
    requires s == m + ":" + t && |t| == 6
    ensures |s| == |m| + 7 && s[|s| - 7] == ':' && s[..|s| - 7] == m && s[|s| - 6..] == t
  {
  }

  lemma LogFromSlices(s: string, m: string, t: string, v: nat, total: nat)
    requires |s| == |m| + 7 && s[|s| - 7] == ':' && s[..|s| - 7] == m && s[|s| - 6..] == t
    requires |m| >= 2 && AllDigits(m) && ParseSecMs(t) == Some(v)
    requires DigitsValue(m) * 60000 + v == total
    ensures ParseLogTime(s) == Some(total)
  {
  }

  /** Where the fields of "H:MM:SS.mmm" sit, counted from the end. */
  lemma VttSlices(s: string, h: string, m: string, t: string)
    requires s == h + ":" + m + ":" + t && |m| == 2 && |t| == 6
    ensures |s| == |h| + 10 && s[|s| - 10] == ':' && s[|s| - 7] == ':'
    ensures s[..|s| - 10] == h && s[|s| - 9..|s| - 7] == m && s[|s| - 6..] == t
  {
  }

  lemma VttFromSlices(s: string, h: string, m: string, t: string, v: nat, total: nat)
    requires |s| == |h| + 10 && s[|s| - 10] == ':' && s[|s| - 7] == ':'
    requires s[..|s| - 10] == h && s[|s| - 9..|s| - 7] == m && s[|s| - 6..] == t
    requires |h| >= 2 && AllDigits(h) && DigitField(m, 2) && DigitsValue(m) < 60 && ParseSecMs(t) == Some(v)
    requires DigitsValue(h) * 3600000 + DigitsValue(m) * 60000 + v == total
    ensures ParseVttTimestamp(s) == Some(total)
  {
  }

  /** Reading hours and minutes in front of a well-formed "SS.mmm". */
  lemma VttTimestampOf(h: string, m: string, t: string, v: nat, total: nat)
    requires |h| >= 2 && AllDigits(h) && DigitField(m, 2) && DigitsValue(m) < 60 && ParseSecMs(t) == Some(v)
    requires DigitsValue(h) * 3600000 + DigitsValue(m) * 60000 + v == total
    ensures ParseVttTimestamp(h + ":" + m + ":" + t) == Some(total)
  {
    VttSlices(h + ":" + m + ":" + t, h, m, t);
    VttFromSlices(h + ":" + m + ":" + t, h, m, t, v, total);
  }

  /** The log clock time read from its three fields. */
  lemma LogTimeOfParts(m: string, sec: string, r: string, total: nat)
    requires |m| >= 2 && AllDigits(m) && DigitField(sec, 2) && DigitsValue(sec) < 60 && DigitField(r, 3)
    requires DigitsValue(m) * 60000 + DigitsValue(sec) * 1000 + DigitsValue(r) == total
    ensures ParseLogTime(m + ":" + sec + "." + r) == Some(total)
  {
    var v := DigitsValue(sec) * 1000 + DigitsValue(r);
    SecMsOf(sec, r, v);
    LogTimeOf(m, sec + "." + r, v, total);
    AppendThree(m + ":", sec, ".", r);
  }

  /** The cue timestamp read from its four fields. */
  lemma VttTimestampOfParts(h: string, m: string, sec: string, r: string, total: nat)
    requires |h| >= 2 && AllDigits(h) && DigitField(m, 2) && DigitsValue(m) < 60
    requires DigitField(sec, 2) && DigitsValue(sec) < 60 && DigitField(r, 3)
    requires DigitsValue(h) * 3600000 + DigitsValue(m) * 60000 + DigitsValue(sec) * 1000 + DigitsValue(r) == total
    ensures ParseVttTimestamp(h + ":" + m + ":" + sec + "." + r) == Some(total)
  {
    var v := DigitsValue(sec) * 1000 + DigitsValue(r);
    SecMsOf(sec, r, v);
    VttTimestampOf(h, m, sec + "." + r, v, total);
    AppendThree(h + ":" + m + ":", sec, ".", r);
  }

  /** Splitting a millisecond count into minutes, seconds and milliseconds and putting it back. */
  lemma ClockParts(ms: nat)
    ensures ms / 1000 / 60 * 60000 + (ms / 1000) % 60 * 1000 + ms % 1000 == ms
    ensures ms / 1000 / 3600 * 3600000 + (ms / 1000 / 60) % 60 * 60000 + (ms / 1000) % 60 * 1000 + ms % 1000 == ms
  {
    var s := ms / 1000;
    assert ms == s * 1000 + ms % 1000;
    assert s == s / 60 * 60 + s % 60;
    assert s / 60 == s / 3600 * 60 + (s / 60) % 60 by {
      assert s / 60 / 60 == s / 3600;
    }
  }

  /** The facts the readers need about the padded fields of a time. */
  lemma PaddedFields(m: nat, sec: nat, r: nat)
    requires m < 60 && sec < 60 && r < 1000
    ensures DigitField(Pad(m, 2), 2) && DigitsValue(Pad(m, 2)) == m
    ensures DigitField(Pad(sec, 2), 2) && DigitsValue(Pad(sec, 2)) == sec
    ensures DigitField(Pad(r, 3), 3) && DigitsValue(Pad(r, 3)) == r
  {
    assert Pow10(2) == 100 && Pow10(3) == 1000;
    PadExact(m, 2);
    PadExact(sec, 2);
    PadExact(r, 3);
  }

  /** The log clock time reads back as the elapsed milliseconds. */
  lemma FormatTimeRoundTrip(ms: nat)
    ensures ParseLogTime(FormatTime(ms)) == Some(ms)
  {
    var m, sec, r := ms / 1000 / 60, JsRem(ms / 1000, 60), JsRem(ms, 1000);
    PadValue(m, 2);
    PaddedFields(0, sec, r);
    ClockParts(ms);
    LogTimeOfParts(Pad(m, 2), Pad(sec, 2), Pad(r, 3), ms);
  }

  /** The cue timestamp is a well-formed WebVTT timestamp for every non-negative time, and it
      reads back as that time. */
  lemma FormatVttTimeRoundTrip(ms: nat)
    ensures ParseVttTimestamp(FormatVttTime(ms)) == Some(ms)
  {
    var h, m, sec, r := ms / 1000 / 3600, JsRem(ms / 1000 / 60, 60), JsRem(ms / 1000, 60), JsRem(ms, 1000);
    PadValue(h, 2);
    PaddedFields(m, sec, r);
    ClockParts(ms);
    VttTimestampOfParts(Pad(h, 2), Pad(m, 2), Pad(sec, 2), Pad(r, 3), ms);
  }

  lemma PadOfEqual(x: int, y: int, width: nat)
    requires x == y
    ensures Pad(x, width) == Pad(y, width)
  {
  }

  lemma PadZero(n: int)
    requires n == 0
    ensures Pad(n, 2) == "00"
  {
    assert NatToString(0) == "0";
  }

  lemma PadZeroMillis(n: int)
    requires n == 0
    ensures Pad(n, 3) == "000"
  {
    assert NatToString(0) == "0";
    assert Repeat('0', 2) == "00";
  }

  lemma PadSixty(n: int)
    requires n == 60
    ensures Pad(n, 2) == "60"
  {
    assert NatToString(6) == "6";
    assert NatToString(60) == "60";
  }

  lemma HourInFront(a: string, b: string, c: string)
    ensures "00" + ":" + a + ":" + b + "." + c == "00:" + (a + ":" + b + "." + c)
  {
  }

  lemma CharNotInStamp(h: string, m: string, sec: string, r: string, c: char)
    requires c !in h && c !in m && c !in sec && c !in r && c != ':' && c != '.'
    ensures c !in h + ":" + m + ":" + sec + "." + r
  {
  }

  /** A cue timestamp is one word on one line: digits, ':' and '.' only. */
  lemma VttTimeIsOneWord(ms: nat)
    ensures ' ' !in FormatVttTime(ms) && '\n' !in FormatVttTime(ms)
  {
    var h, m, sec, r := ms / 1000 / 3600, JsRem(ms / 1000 / 60, 60), JsRem(ms / 1000, 60), JsRem(ms, 1000);
    PadValue(h, 2);
    PaddedFields(m, sec, r);
    NoSeparatorInDigits(Pad(h, 2), ' ');
    NoSeparatorInDigits(Pad(m, 2), ' ');
    NoSeparatorInDigits(Pad(sec, 2), ' ');
    NoSeparatorInDigits(Pad(r, 3), ' ');
    NoSeparatorInDigits(Pad(h, 2), '\n');
    NoSeparatorInDigits(Pad(m, 2), '\n');
    NoSeparatorInDigits(Pad(sec, 2), '\n');
    NoSeparatorInDigits(Pad(r, 3), '\n');
    CharNotInStamp(Pad(h, 2), Pad(m, 2), Pad(sec, 2), Pad(r, 3), ' ');
    CharNotInStamp(Pad(h, 2), Pad(m, 2), Pad(sec, 2), Pad(r, 3), '\n');
  }

  /** Below one hour the written formatter and the corrected one agree. */
  lemma VttTimeAgreesBelowOneHour(ms: int)
    requires 0 <= ms < 3600000
    ensures FormatVttTimeAsWritten(ms) == FormatVttTime(ms)
  {
    var ts := ms / 1000;
    PadZero(ts / 3600);
    PadOfEqual(JsRem(ts / 60, 60), ts / 60, 2);
    HourInFront(Pad(ts / 60, 2), Pad(JsRem(ts, 60), 2), Pad(JsRem(ms, 1000), 3));
  }

  /** With a constant "00" hour field, a minutes field of 60 or more is never read as a WebVTT
      timestamp, whatever its width. */
  lemma MinutesPastLimitRejected(p: string, b: string, c: string)
    requires |p| >= 2 && AllDigits(p) && DigitsValue(p) >= 60 && |b| == 2 && |c| == 3
    ensures ParseVttTimestamp("00:" + (p + ":" + b + "." + c)) == None
  {
    var s := "00:" + (p + ":" + b + "." + c);
    assert |s| == |p| + 10;
    if |p| == 2 {
      assert s[|s| - 9..|s| - 7] == p;
    } else {
      assert s[|s| - 10] == p[|p| - 3];
      DigitAt(p, |p| - 3);
    }
  }

  /** From one hour on, the written formatter's output is not a WebVTT timestamp: the minutes
      field reaches 60 (or grows a third digit) because the hour field is the constant "00". */
  lemma VttTimeAsWrittenPastOneHour(ms: int)
    requires ms >= 3600000
    ensures ParseVttTimestamp(FormatVttTimeAsWritten(ms)) == None
  {
    var ts := ms / 1000;
    PadValue(ts / 60, 2);
    PaddedFields(0, JsRem(ts, 60), JsRem(ms, 1000));
    MinutesPastLimitRejected(Pad(ts / 60, 2), Pad(JsRem(ts, 60), 2), Pad(JsRem(ms, 1000), 3));
  }

  /** The log time of the test vector: one minute, five seconds, 300 milliseconds. */
  lemma FormatTimeExample()
    ensures FormatTime(65300) == "01:05.300"
  {
    assert 65300 / 1000 == 65 && 65 / 60 == 1 && JsRem(65, 60) == 5 && JsRem(65300, 1000) == 300;
    assert Pad(1, 2) == "01" by { assert NatToString(1) == "1"; }
    assert Pad(5, 2) == "05" by { assert NatToString(5) == "5"; }
    assert Pad(300, 3) == "300" by {
      assert NatToString(3) == "3";
      assert NatToString(30) == "30";
      assert NatToString(300) == "300";
    }
  }

  /** The same instant as a cue timestamp. */
  lemma FormatVttTimeExample(ms: int)
    requires ms == 65300
    ensures FormatVttTime(ms) == "00:01:05.300"
  {
    FormatTimeExample();
    VttTimeAgreesBelowOneHour(ms);
    assert FormatVttTimeAsWritten(ms) == "00:" + "01:05.300";
  }

  /** The written formatter at exactly one hour: a minutes field of 60. */
  lemma FormatVttTimeAsWrittenExample(ms: int)
    requires ms == 3600000
    ensures FormatVttTimeAsWritten(ms) == "00:60:00.000"
  {
    PadSixty(ms / 1000 / 60);
    PadZero(JsRem(ms / 1000, 60));
    PadZeroMillis(JsRem(ms, 1000));
    assert FormatTime(ms) == "60" + ":" + "00" + "." + "000";
  }

  /** The corrected formatter at exactly one hour: an hour field of 01. */
  lemma FormatVttTimeHourExample(ms: int)
    requires ms == 3600000
    ensures FormatVttTime(ms) == "01:00:00.000"
  {
    assert Pad(1, 2) == "01" by { assert NatToString(1) == "1"; }
    PadZero(JsRem(ms / 1000 / 60, 60));
    PadZero(JsRem(ms / 1000, 60));
    PadZeroMillis(JsRem(ms, 1000));
  }

  /** The two total-duration test vectors. */
  lemma FormatDurationExamples()
    ensures FormatDuration(125750) == "2m 5s 750ms"
    ensures FormatDuration(5250) == "5s 250ms"
  {
    assert 125750 / 1000 == 125 && 125 / 60 == 2 && JsRem(125, 60) == 5 && JsRem(125750, 1000) == 750;
    assert 5250 / 1000 == 5 && JsRem(5250, 1000) == 250;
    assert IntToString(2) == "2" && IntToString(5) == "5";
    assert IntToString(750) == "750" by {
      assert NatToString(7) == "7";
      assert NatToString(75) == "75";
    }
    assert IntToString(250) == "250" by {
      assert NatToString(2) == "2";
      assert NatToString(25) == "25";
    }
  }

  /** A number followed by its unit holds no blank and reads back as the number. */
  lemma UnitWord(x: string, unit: string)
    requires |x| > 0 && AllDigits(x) && |unit| > 0 && ' ' !in unit
    ensures ' ' !in x + unit
    ensures UnitValue(x + unit, unit) == Some(DigitsValue(x))
  {
    NoSeparatorInDigits(x, ' ');
    var w := x + unit;
    assert w[|w| - |unit|..] == unit;
    assert w[..|w| - |unit|] == x;
  }

  lemma SplitTwoWords(a: string, b: string)
    requires ' ' !in a && ' ' !in b
    ensures Split(a + " " + b, ' ') == [a, b]
  {
    SplitNoSeparator(b, ' ');
    SplitAppend(a, b, ' ');
  }

  lemma SplitThreeWords(a: string, b: string, c: string)
    requires ' ' !in a && ' ' !in b && ' ' !in c
    ensures Split(a + " " + b + " " + c, ' ') == [a, b, c]
  {
    SplitTwoWords(b, c);
    assert a + " " + b + " " + c == a + [' '] + (b + " " + c);
    SplitAppend(a, b + " " + c, ' ');
  }

  lemma DurationText(x0: string, x1: string, x2: string)
    ensures x0 + "m " + x1 + "s " + x2 + "ms" == (x0 + "m") + " " + (x1 + "s") + " " + (x2 + "ms")
    ensures x1 + "s " + x2 + "ms" == (x1 + "s") + " " + (x2 + "ms")
  {
  }

  lemma DurationFields3(words: seq<string>, m: nat, sec: nat, r: nat, total: nat)
    requires |words| == 3
    requires UnitValue(words[0], "m") == Some(m) && UnitValue(words[1], "s") == Some(sec) && UnitValue(words[2], "ms") == Some(r)
    requires sec < 60 && r < 1000 && m * 60000 + sec * 1000 + r == total
    ensures DurationFields(words) == Some(total)
  {
  }

  lemma DurationFields2(words: seq<string>, sec: nat, r: nat, total: nat)
    requires |words| == 2
    requires UnitValue(words[0], "s") == Some(sec) && UnitValue(words[1], "ms") == Some(r)
    requires sec < 60 && r < 1000 && sec * 1000 + r == total
    ensures DurationFields(words) == Some(total)
  {
  }

  /** "Mm Ss Rms" read from its three numbers. */
  lemma DurationOfWords3(x0: string, x1: string, x2: string, total: nat)
    requires |x0| > 0 && AllDigits(x0) && |x1| > 0 && AllDigits(x1) && |x2| > 0 && AllDigits(x2)
    requires DigitsValue(x1) < 60 && DigitsValue(x2) < 1000
    requires DigitsValue(x0) * 60000 + DigitsValue(x1) * 1000 + DigitsValue(x2) == total
    ensures ParseDuration(x0 + "m " + x1 + "s " + x2 + "ms") == Some(total)
  {
    UnitWord(x0, "m");
    UnitWord(x1, "s");
    UnitWord(x2, "ms");
    DurationText(x0, x1, x2);
    SplitThreeWords(x0 + "m", x1 + "s", x2 + "ms");
    var words := [x0 + "m", x1 + "s", x2 + "ms"];
    assert words[0] == x0 + "m" && words[1] == x1 + "s" && words[2] == x2 + "ms";
    DurationFields3(words, DigitsValue(x0), DigitsValue(x1), DigitsValue(x2), total);
  }

  /** "Ss Rms" read from its two numbers. */
  lemma DurationOfWords2(x1: string, x2: string, total: nat)
    requires |x1| > 0 && AllDigits(x1) && |x2| > 0 && AllDigits(x2)
    requires DigitsValue(x1) < 60 && DigitsValue(x2) < 1000
    requires DigitsValue(x1) * 1000 + DigitsValue(x2) == total
    ensures ParseDuration(x1 + "s " + x2 + "ms") == Some(total)
  {
    UnitWord(x1, "s");
    UnitWord(x2, "ms");
    DurationText("", x1, x2);
    SplitTwoWords(x1 + "s", x2 + "ms");
    var words := [x1 + "s", x2 + "ms"];
    assert words[0] == x1 + "s" && words[1] == x2 + "ms";
    DurationFields2(words, DigitsValue(x1), DigitsValue(x2), total);
  }

  /** The total duration reads back as the milliseconds it renders. */
  lemma FormatDurationRoundTrip(ms: nat)
    ensures ParseDuration(FormatDuration(ms)) == Some(ms)
  {
    var seconds := ms / 1000;
    ClockParts(ms);
    DigitsValueOfNatToString(JsRem(ms, 1000));
    if seconds >= 60 {
      DigitsValueOfNatToString(seconds / 60);
      DigitsValueOfNatToString(JsRem(seconds, 60));
      DurationOfWords3(IntToString(seconds / 60), IntToString(JsRem(seconds, 60)), IntToString(JsRem(ms, 1000)), ms);
    } else {
      DigitsValueOfNatToString(seconds);
      DurationOfWords2(IntToString(seconds), IntToString(JsRem(ms, 1000)), ms);
    }
  }
}
