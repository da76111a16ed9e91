/** The Python renderings of the value types the command options hold:
    `str()` of `datetime.time`, `datetime.datetime` and `decimal.Decimal`,
    and `time.strftime("%H:%M:%S.%f")`, with the readers the form's time and
    timestamp fields apply to a text, which read each rendering back. */
module Renderings {
  import opened Wrappers
  import opened Text

  /** A `datetime.time` without time zone. */
  datatype Time = Time(hour: nat, minute: nat, second: nat, microsecond: nat)

  predicate ValidTime(t: Time)
  {
    t.hour < 24 && t.minute < 60 && t.second < 60 && t.microsecond < 1000000
  }

  function Clock(t: Time): string
  {
    PadNat(t.hour, 2) + ":" + PadNat(t.minute, 2) + ":" + PadNat(t.second, 2)
  }

  /** `str(t)`, that is `t.isoformat()`: `HH:MM:SS`, followed by `.ffffff`
      only when the microseconds are not zero. */
  function TimeStr(t: Time): string
  {
    Clock(t) + (if t.microsecond != 0 then "." + PadNat(t.microsecond, 6) else "")
  }

  /** `t.strftime("%H:%M:%S.%f")`: the fraction is always written, on six digits. */
  function StrfTime(t: Time): string
  {
    Clock(t) + "." + PadNat(t.microsecond, 6)
  }

  /** A `%H`, `%M` or `%S` field as strptime reads it: one or two digits
      whose value is below `bound`. strptime's pattern already refuses a
      two-digit hour from 24 or a minute from 60; a second of 60 or 61 gets
      through the pattern but `datetime.time` raises `ValueError` for it,
      which the form field reads as an invalid input. */
  function ParseField(s: string, bound: nat): (r: Option<nat>)
    ensures r.Some? ==> r.value < bound
    ensures r.Some? <==> 1 <= |s| <= 2 && AllDigits(s) && ParseDigits(s) < bound
  {
    if 1 <= |s| <= 2 && AllDigits(s) && ParseDigits(s) < bound then Some(ParseDigits(s)) else None
  }

  /** The `%f` field: one to six digits, read as the leading digits of the
      microseconds (`"5"` is 500000). */
  function ParseFraction(s: string): (r: Option<nat>)
    ensures r.Some? ==> r.value < 1000000
    ensures r.Some? <==> 1 <= |s| <= 6 && AllDigits(s)
  {
    if 1 <= |s| <= 6 && AllDigits(s) then
      FractionBound(s);
      Some(ParseDigits(s) * Pow10(6 - |s|))
    else None
  }

  lemma FractionBound(s: string)
    requires |s| <= 6 && AllDigits(s)
    ensures ParseDigits(s) * Pow10(6 - |s|) < 1000000
  {
    ParseDigitsBound(s);
    Pow10Add(|s|, 6 - |s|);
    MulLess(ParseDigits(s), Pow10(|s|), Pow10(6 - |s|));
    assert Pow10(6) == 1000000;
  }

  lemma MulLess(x: nat, y: nat, p: nat)
    requires x < y && p >= 1
    ensures x * p < y * p
  {
  }

  lemma {:induction false} Pow10Add(a: nat, b: nat)
    ensures Pow10(a) * Pow10(b) == Pow10(a + b)
  {
    if a > 0 {
      Pow10Add(a - 1, b);
      assert Pow10(a) * Pow10(b) == 10 * (Pow10(a - 1) * Pow10(b));
    }
  }

  /** strptime with the format `%H:%M:%S`: three fields between two colons,
      each of one or two digits and in range. */
  function ParseClock(s: string): (r: Option<Time>)
    ensures r.Some? ==> ValidTime(r.value) && r.value.microsecond == 0
  {
    var parts := Split(':', s);
    if |parts| == 3 then
      match (ParseField(parts[0], 24), ParseField(parts[1], 60), ParseField(parts[2], 60))
      case (Some(h), Some(m), Some(sec)) => Some(Time(h, m, sec, 0))
      case _ => None
    else None
  }

  /** strptime with the format `%H:%M:%S.%f`: a clock, a dot and a fraction. */
  function ParseClockFraction(s: string): (r: Option<Time>)
    ensures r.Some? ==> ValidTime(r.value)
  {
    var parts := Split('.', s);
    if |parts| == 2 then
      match (ParseClock(parts[0]), ParseFraction(parts[1]))
      case (Some(t), Some(us)) => Some(t.(microsecond := us))
      case _ => None
    else None
  }

  /** What a time field with the input formats `["%H:%M:%S.%f", "%H:%M:%S"]`
      reads from a non-empty text: the text is stripped, then each format is
      tried in turn. */
  function ParseTime(s: string): (r: Option<Time>)
    ensures r.Some? ==> ValidTime(r.value)
  {
    var v := Strip(s);
    match ParseClockFraction(v)
    case Some(t) => Some(t)
    case None => ParseClock(v)
  }

  lemma ParseDigitsBound(s: string)
    requires AllDigits(s)
    ensures ParseDigits(s) < Pow10(|s|)
  {
    if s != [] {
      ParseDigitsBound(s[..|s| - 1]);
    }
  }

  /** Three fields that each match one or two digits read as a clock exactly
      when all three are in range; the fields need not be zero-padded. */
  lemma ParseClockFields(h: string, m: string, sec: string)
    requires 1 <= |h| <= 2 && 1 <= |m| <= 2 && 1 <= |sec| <= 2
    requires AllDigits(h) && AllDigits(m) && AllDigits(sec)
    ensures ParseClock(h + ":" + m + ":" + sec)
         == if ParseDigits(h) < 24 && ParseDigits(m) < 60 && ParseDigits(sec) < 60
            then Some(Time(ParseDigits(h), ParseDigits(m), ParseDigits(sec), 0))
            else None
  {
    ClockSplit(h, m, sec);
  }

  lemma ClockSplit(h: string, m: string, sec: string)
    requires AllDigits(h) && AllDigits(m) && AllDigits(sec)
    ensures Split(':', h + ":" + m + ":" + sec) == [h, m, sec]
    ensures '.' !in h + ":" + m + ":" + sec
  {
    DigitsExclude(h, ':');
    DigitsExclude(m, ':');
    DigitsExclude(sec, ':');
    DigitsExclude(h, '.');
    DigitsExclude(m, '.');
    DigitsExclude(sec, '.');
    JoinThree(":", h, m, sec);
    SplitJoin(':', [h, m, sec]);
  }

  /** A clock followed by a dot and one to six digits reads as that clock
      with the digits as the leading digits of its microseconds. */
  lemma ParseClockFractionParts(c: string, f: string)
    requires '.' !in c
    requires 1 <= |f| <= 6 && AllDigits(f)
    ensures ParseClockFraction(c + "." + f)
         == match ParseClock(c)
            case Some(t) => Some(t.(microsecond := ParseDigits(f) * Pow10(6 - |f|)))
            case None => None
  {
    DigitsExclude(f, '.');
    JoinTwo(".", c, f);
    SplitJoin('.', [c, f]);
  }

  /** White space around the text does not change what a time field reads. */
  lemma ParseTimeStrips(pre: string, s: string, post: string)
    requires AllSpace(pre) && AllSpace(post)
    requires |s| >= 1 && !IsSpace(s[0]) && !IsSpace(s[|s| - 1])
    ensures ParseTime(pre + s + post) == ParseTime(s)
  {
    StripPadded(pre, s, post);
    StripPlain(s);
  }

  lemma ClockRoundTrip(t: Time)
    requires ValidTime(t)
    ensures |Clock(t)| == 8
    ensures '.' !in Clock(t)
    ensures ParseClock(Clock(t)) == Some(t.(microsecond := 0))
  {
    ClockSplit(PadNat(t.hour, 2), PadNat(t.minute, 2), PadNat(t.second, 2));
    PadNatRoundTrip(t.hour, 2);
    PadNatRoundTrip(t.minute, 2);
    PadNatRoundTrip(t.second, 2);
  }

  /** A rendered clock starts and ends with a digit, so `strip()` keeps it whole. */
  lemma ClockEnds(t: Time, rest: string)
    requires |rest| == 0 || IsDigit(rest[|rest| - 1])
    ensures Strip(Clock(t) + rest) == Clock(t) + rest
  {
    var s := Clock(t) + rest;
    assert s[0] == PadNat(t.hour, 2)[0];
    assert IsDigit(s[|s| - 1]);
    StripPlain(s);
  }

  /** `str()` of a time field is read back to the same time by the field's
      input formats, so the rendering loses nothing. */
  lemma TimeStrRoundTrip(t: Time)
    requires ValidTime(t)
    ensures ParseTime(TimeStr(t)) == Some(t)
  {
    ClockRoundTrip(t);
    if t.microsecond != 0 {
      var f := PadNat(t.microsecond, 6);
      ClockEnds(t, "." + f);
      assert Clock(t) + "." + f == Clock(t) + ("." + f);
      ParseClockFractionParts(Clock(t), f);
      PadNatRoundTrip(t.microsecond, 6);
    } else {
      ClockEnds(t, "");
      assert TimeStr(t) == Clock(t) + "" == Clock(t);
      SplitNoSeparator('.', Clock(t));
      assert ParseClockFraction(Clock(t)).None?;
      assert t.(microsecond := 0) == t;
    }
  }

  /** `%H:%M:%S.%f` always writes fifteen characters, six of them fraction
      digits, and reads back to the same time. */
  lemma StrfTimeRoundTrip(t: Time)
    requires ValidTime(t)
    ensures |StrfTime(t)| == 15 && StrfTime(t)[8] == '.' && AllDigits(StrfTime(t)[9..])
    ensures ParseTime(StrfTime(t)) == Some(t)
  {
    ClockRoundTrip(t);
    var f := PadNat(t.microsecond, 6);
    var s := StrfTime(t);
    assert s[9..] == f;
    ClockEnds(t, "." + f);
    assert Clock(t) + "." + f == Clock(t) + ("." + f);
    ParseClockFractionParts(Clock(t), f);
    PadNatRoundTrip(t.microsecond, 6);
  }

  /** Text without a dot and without white space at its ends can only match
      the `%H:%M:%S` format. */
  lemma ParseTimeNoDot(c: string)
    requires '.' !in c
    requires |c| >= 1 && !IsSpace(c[0]) && !IsSpace(c[|c| - 1])
    ensures ParseTime(c) == ParseClock(c)
  {
    StripPlain(c);
    SplitNoSeparator('.', c);
  }

  /** A zero-padded-or-not clock with no white space at its ends. */
  lemma ClockText(h: string, m: string, sec: string)
    requires 1 <= |h| && 1 <= |sec|
    requires AllDigits(h) && AllDigits(m) && AllDigits(sec)
    ensures var c := h + ":" + m + ":" + sec;
            && |c| >= 1 && IsDigit(c[0]) && IsDigit(c[|c| - 1]) && '.' !in c
  {
    var c := h + ":" + m + ":" + sec;
    assert c[0] == h[0];
    assert c[|c| - 1] == sec[|sec| - 1];
    ClockSplit(h, m, sec);
  }

  /** A clock of one- or two-digit fields, with white space around it, reads
      as that clock exactly when its fields are in range. */
  lemma ParseTimeFields(pre: string, h: string, m: string, sec: string, post: string)
    requires AllSpace(pre) && AllSpace(post)
    requires 1 <= |h| <= 2 && 1 <= |m| <= 2 && 1 <= |sec| <= 2
    requires AllDigits(h) && AllDigits(m) && AllDigits(sec)
    ensures ParseTime(pre + (h + ":" + m + ":" + sec) + post)
         == if ParseDigits(h) < 24 && ParseDigits(m) < 60 && ParseDigits(sec) < 60
            then Some(Time(ParseDigits(h), ParseDigits(m), ParseDigits(sec), 0))
            else None
  {
    var c := h + ":" + m + ":" + sec;
    ClockText(h, m, sec);
    ParseTimeStrips(pre, c, post);
    ParseTimeNoDot(c);
    ParseClockFields(h, m, sec);
  }

  /** A zero-padded clock followed by a short fraction reads with the
      fraction's digits as the leading digits of the microseconds. */
  lemma ParseTimeShortFraction(h: string, m: string, sec: string, f: string)
    requires 1 <= |h| <= 2 && 1 <= |m| <= 2 && 1 <= |sec| <= 2 && 1 <= |f| <= 6
    requires AllDigits(h) && AllDigits(m) && AllDigits(sec) && AllDigits(f)
    requires ParseDigits(h) < 24 && ParseDigits(m) < 60 && ParseDigits(sec) < 60
    ensures ParseTime(h + ":" + m + ":" + sec + "." + f)
         == Some(Time(ParseDigits(h), ParseDigits(m), ParseDigits(sec), ParseDigits(f) * Pow10(6 - |f|)))
  {
    var c := h + ":" + m + ":" + sec;
    ClockText(h, m, sec);
    ParseClockFields(h, m, sec);
    ParseClockFractionParts(c, f);
    FractionText(c, f);
  }

  lemma FractionText(c: string, f: string)
    requires |c| >= 1 && IsDigit(c[0]) && |f| >= 1 && AllDigits(f)
    ensures Strip(c + "." + f) == c + "." + f
  {
    var s := c + "." + f;
    assert s[0] == c[0] && s[|s| - 1] == f[|f| - 1];
    StripPlain(s);
  }

  const OneDigitHour := " 0:10:00"
  const HalfSecond := "00:10:00.5"
  const LateHour := "24:00:00"

  lemma SmallNumbers()
    ensures AllDigits("0") && ParseDigits("0") == 0
    ensures AllDigits("00") && ParseDigits("00") == 0
    ensures AllDigits("10") && ParseDigits("10") == 10
    ensures AllDigits("24") && ParseDigits("24") == 24
    ensures AllDigits("5") && ParseDigits("5") * Pow10(6 - |"5"|) == 500000
  {
  }

  /** A one-digit hour with white space before it reads as the time. */
  lemma OneDigitHourRead()
    ensures ParseTime(OneDigitHour) == Some(Time(0, 10, 0, 0))
  {
    assert OneDigitHour == " " + ("0" + ":" + "10" + ":" + "00") + "";
    SmallNumbers();
    ParseTimeFields(" ", "0", "10", "00", "");
  }

  /** A one-digit fraction stands for the leading digit of the microseconds. */
  lemma HalfSecondRead()
    ensures ParseTime(HalfSecond) == Some(Time(0, 10, 0, 500000))
  {
    var c := "00" + ":" + "10" + ":" + "00";
    assert c == "00:10:00";
    assert HalfSecond == "00:10:00" + ".5";
    assert ".5" == "." + "5";
    assert HalfSecond == c + "." + "5";
    SmallNumbers();
    ParseTimeShortFraction("00", "10", "00", "5");
  }

  /** An hour past 23 is refused. */
  lemma LateHourRefused()
    ensures ParseTime(LateHour) == None
  {
    assert LateHour == "" + ("24" + ":" + "00" + ":" + "00") + "";
    SmallNumbers();
    ParseTimeFields("", "24", "00", "00", "");
  }

  /** A naive `datetime.datetime`. */
  datatype DateTime = DateTime(year: nat, month: nat, day: nat, time: Time)

  function DaysInMonth(year: nat, month: nat): nat
  {
    if month == 2 then (if year % 4 == 0 && (year % 100 != 0 || year % 400 == 0) then 29 else 28)
    else if month == 4 || month == 6 || month == 9 || month == 11 then 30
    else 31
  }

  predicate ValidDateTime(dt: DateTime)
  {
    && 1 <= dt.year <= 9999
    && 1 <= dt.month <= 12
    && 1 <= dt.day <= DaysInMonth(dt.year, dt.month)
    && ValidTime(dt.time)
  }

  /** `str(dt)`, that is `dt.isoformat(" ")`: `YYYY-MM-DD HH:MM:SS[.ffffff]`. */
  function DateTimeStr(dt: DateTime): string
  {
    PadNat(dt.year, 4) + "-" + PadNat(dt.month, 2) + "-" + PadNat(dt.day, 2) + " " + TimeStr(dt.time)
  }

  /** What the timestamp field reads in the form `DateTimeStr` writes: the
      text is stripped, then `%Y-%m-%d` with a fixed-width date, white space,
      and a time as the time fields read it. */
  function ParseDateTime(s: string): (r: Option<DateTime>)
    ensures r.Some? ==> ValidDateTime(r.value)
  {
    var v := Strip(s);
    if |v| >= 11 && v[4] == '-' && v[7] == '-' && v[10] == ' '
       && AllDigits(v[..4]) && AllDigits(v[5..7]) && AllDigits(v[8..10])
    then
      match ParseTime(v[11..])
      case Some(t) =>
        var dt := DateTime(ParseDigits(v[..4]), ParseDigits(v[5..7]), ParseDigits(v[8..10]), t);
        if ValidDateTime(dt) then Some(dt) else None
      case None => None
    else None
  }

  lemma DateTimeStrRoundTrip(dt: DateTime)
    requires ValidDateTime(dt)
    ensures ParseDateTime(DateTimeStr(dt)) == Some(dt)
  {
    var s := DateTimeStr(dt);
    assert s[..4] == PadNat(dt.year, 4);
    assert s[5..7] == PadNat(dt.month, 2);
    assert s[8..10] == PadNat(dt.day, 2);
    assert s[11..] == TimeStr(dt.time);
    TimeStrEndsWithDigit(dt.time);
    assert IsDigit(s[0]) && IsDigit(s[|s| - 1]);
    StripPlain(s);
    PadNatRoundTrip(dt.year, 4);
    PadNatRoundTrip(dt.month, 2);
    PadNatRoundTrip(dt.day, 2);
    TimeStrRoundTrip(dt.time);
  }

  lemma TimeStrEndsWithDigit(t: Time)
    ensures |TimeStr(t)| >= 1 && IsDigit(TimeStr(t)[|TimeStr(t)| - 1])
  {
    var c := Clock(t);
    assert |c| == 8 && c[7] == PadNat(t.second, 2)[1];
    if t.microsecond != 0 {
      var f := PadNat(t.microsecond, 6);
      assert TimeStr(t)[|TimeStr(t)| - 1] == f[5];
    }
  }

  /** A finite `decimal.Decimal`: sign, coefficient and exponent. */
  datatype Decimal = Decimal(negative: bool, coefficient: nat, exponent: int)

  /** Python's truth value of a Decimal: false exactly for zero. */
  predicate DecimalTruthy(d: Decimal)
  {
    d.coefficient != 0
  }

  function Zeros(n: nat): string
  {
    seq(n, _ => '0')
  }

  /** `str(d)`: plain notation when the exponent is at most zero and the
      number is not too small, scientific notation otherwise
      (`Decimal.__str__` with the default context). */
  function DecimalStr(d: Decimal): string
  {
    var digits := NatStr(d.coefficient);
    var left := d.exponent + |digits|;
    var dot := if d.exponent <= 0 && left > -6 then left else 1;
    var intPart :=
      if dot <= 0 then "0"
      else if dot >= |digits| then digits + Zeros(dot - |digits|)
      else digits[..dot];
    var fracPart :=
      if dot <= 0 then "." + Zeros(-dot) + digits
      else if dot >= |digits| then ""
      else "." + digits[dot..];
    var expPart :=
      if left == dot then ""
      else "E" + (if left - dot > 0 then "+" else "") + IntStr(left - dot);
    (if d.negative then "-" else "") + intPart + fracPart + expPart
  }

  /** A rendered Decimal begins with a digit, or with a minus sign and a digit. */
  lemma DecimalStrShape(d: Decimal)
    ensures |DecimalStr(d)| >= 1
    ensures DecimalStr(d)[0] == '-' ==> |DecimalStr(d)| >= 2 && IsDigit(DecimalStr(d)[1])
    ensures DecimalStr(d)[0] != '-' ==> IsDigit(DecimalStr(d)[0])
  {
  }
}
