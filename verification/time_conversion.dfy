/**
 * The pair of sleep-time helpers defined beside their unit tests: "HhMM" text to decimal
 * hours (timeToDecimal) and back (decimalToTime, which carries 60 minutes into the hour).
 */
module TimeConversion {
  import opened Numbers
  import opened Text

  /** The regular expression /^(\d+)h(\d+)$/: digits, the letter h, digits, nothing else. */
  predicate MatchesHoursMinutes(s: string) {
    var k := IndexOf(s, 'h');
    1 <= k && k + 1 < |s| && IsDigits(s[..k]) && IsDigits(s[k + 1..])
  }

  /** timeToDecimal: hours plus minutes / 60 for a matching string, 0 for anything else. */
  function TimeToDecimal(timeString: string): (r: real)
    ensures r >= 0.0
    ensures !MatchesHoursMinutes(timeString) ==> r == 0.0
  {
    if MatchesHoursMinutes(timeString) then
      var k := IndexOf(timeString, 'h');
      DigitsValue(timeString[..k]) as real + DigitsValue(timeString[k + 1..]) as real / 60.0
    else 0.0
  }

  /** A digit string, h, and a digit string are read as hours and minutes. */
  lemma TimeToDecimalOfParts(hours: string, minutes: string)
    requires 1 <= |hours| && IsDigits(hours) && 1 <= |minutes| && IsDigits(minutes)
    ensures MatchesHoursMinutes(hours + "h" + minutes)
    ensures TimeToDecimal(hours + "h" + minutes) == DigitsValue(hours) as real + DigitsValue(minutes) as real / 60.0
  {
    var s := hours + "h" + minutes;
    assert forall i :: 0 <= i < |hours| ==> s[i] == hours[i] && s[i] != 'h';
    assert s[|hours|] == 'h';
    assert IndexOf(s, 'h') == |hours|;
    assert s[..|hours|] == hours;
    assert s[|hours| + 1..] == minutes;
  }

  /** decimalToTime: whole hours, minutes rounded, a round 60 carried into the next hour. */
  function DecimalToTime(decimalHours: real): string {
    var hours := Floor(decimalHours);
    var minutes := Round((decimalHours - hours as real) * 60.0);
    if minutes == 60 then IntToString(hours + 1) + "h00"
    else IntToString(hours) + "h" + PadStart2(IntToString(minutes))
  }

  /** A count of minutes as "HhMM" with two-digit minutes below 60 (Euclidean division). */
  function MinutesToText(totalMinutes: int): string {
    IntToString(totalMinutes / 60) + "h" + PadStart2(NatToString(totalMinutes % 60))
  }

  lemma RoundShift(n: int, y: real)
    ensures Round(n as real + y) == n + Round(y)
  {
    assert (n as real + y + 0.5).Floor == n + (y + 0.5).Floor;
  }

  lemma DivMod60(h: int, m: int)
    requires 0 <= m < 60
    ensures (h * 60 + m) / 60 == h && (h * 60 + m) % 60 == m
  {
  }

  /** Hours and minutes below 60 render as the hours, "h" and the minutes in two digits. */
  lemma MinutesToTextParts(h: int, m: nat)
    requires m < 60
    ensures MinutesToText(h * 60 + m) == IntToString(h) + "h" + PadStart2(NatToString(m))
  {
    DivMod60(h, m);
  }

  /** The whole hours and rounded minutes of decimalToTime, counted in minutes. */
  lemma HoursAndMinutes(decimalHours: real)
    ensures var h := Floor(decimalHours);
      var m := Round((decimalHours - h as real) * 60.0);
      0 <= m <= 60 && Round(decimalHours * 60.0) == h * 60 + m
  {
    var h := Floor(decimalHours);
    var f := decimalHours - h as real;
    assert decimalHours * 60.0 == (h * 60) as real + f * 60.0;
    RoundShift(h * 60, f * 60.0);
  }

  /** decimalToTime renders the time rounded to the nearest whole minute. */
  lemma DecimalToTimeIsNearestMinute(decimalHours: real)
    ensures DecimalToTime(decimalHours) == MinutesToText(Round(decimalHours * 60.0))
  {
    HoursAndMinutes(decimalHours);
    var h := Floor(decimalHours);
    var m := Round((decimalHours - h as real) * 60.0);
    if m == 60 {
      CarriedHour(h + 1);
    } else {
      MinutesToTextParts(h, m);
      assert IntToString(m) == NatToString(m);
    }
  }

  /** A round hour renders with "00" minutes. */
  lemma CarriedHour(h: int)
    ensures MinutesToText(h * 60) == IntToString(h) + "h00"
  {
    MinutesToTextParts(h, 0);
    assert PadStart2(NatToString(0)) == "00";
    assert IntToString(h) + "h" + "00" == IntToString(h) + "h00";
  }

  /** Minutes are always two digits below 60; the hour part is the decimal rendering of an integer. */
  lemma DecimalToTimeShape(decimalHours: real)
    ensures exists hours: int, minutes: nat ::
      && minutes < 60
      && DecimalToTime(decimalHours) == IntToString(hours) + "h" + PadStart2(NatToString(minutes))
      && |PadStart2(NatToString(minutes))| == 2
  {
    DecimalToTimeIsNearestMinute(decimalHours);
    var t := Round(decimalHours * 60.0);
    PadStart2Parses(t % 60);
  }

  /** Any "HhMM" with minutes below 60 survives the round trip text -> decimal -> text. */
  lemma {:induction false} RoundTrip(hours: nat, minutes: nat)
    requires minutes < 60
    ensures var s := NatToString(hours) + "h" + PadStart2(NatToString(minutes));
      DecimalToTime(TimeToDecimal(s)) == s
  {
    var s := NatToString(hours) + "h" + PadStart2(NatToString(minutes));
    ReadPadded(hours, minutes);
    WholeMinutes(hours, minutes);
    WriteWholeMinutes(TimeToDecimal(s), hours, minutes);
  }

  /** Hours and zero-padded minutes below 60 read as hours plus minutes / 60. */
  lemma ReadPadded(hours: nat, minutes: nat)
    requires minutes < 60
    ensures TimeToDecimal(NatToString(hours) + "h" + PadStart2(NatToString(minutes)))
      == hours as real + minutes as real / 60.0
  {
    PadStart2Parses(minutes);
    NatToStringParses(hours);
    TimeToDecimalOfParts(NatToString(hours), PadStart2(NatToString(minutes)));
  }

  /** Hours plus minutes / 60, counted in minutes, is exactly the whole number of minutes. */
  lemma WholeMinutes(hours: nat, minutes: nat)
    ensures Round((hours as real + minutes as real / 60.0) * 60.0) == hours * 60 + minutes
  {
    assert (hours as real + minutes as real / 60.0) * 60.0 == (hours * 60 + minutes) as real;
    RoundOfInt(hours * 60 + minutes);
  }

  /** A time that is a whole number of minutes renders as its hours and padded minutes. */
  lemma WriteWholeMinutes(x: real, hours: nat, minutes: nat)
    requires minutes < 60 && Round(x * 60.0) == hours * 60 + minutes
    ensures DecimalToTime(x) == NatToString(hours) + "h" + PadStart2(NatToString(minutes))
  {
    DecimalToTimeIsNearestMinute(x);
    MinutesToTextParts(hours, minutes);
  }

  /** The asserted conversions: "7h30" is 7.5 and "8h00" is 8. */
  lemma TimeToDecimalExamples()
    ensures TimeToDecimal("7h30") == 7.5
    ensures TimeToDecimal("8h00") == 8.0
  {
    TimeToDecimalOfParts("7", "30");
    assert "7h30" == "7" + "h" + "30";
    TimeToDecimalOfParts("8", "00");
    assert "8h00" == "8" + "h" + "00";
  }

  /** More asserted conversions: "6h45" is 6.75 and "5h12" is 5.2. */
  lemma TimeToDecimalMoreExamples()
    ensures TimeToDecimal("6h45") == 6.75
    ensures TimeToDecimal("5h12") == 5.2
  {
    TimeToDecimalOfParts("6", "45");
    assert "6h45" == "6" + "h" + "45";
    TimeToDecimalOfParts("5", "12");
    assert "5h12" == "5" + "h" + "12";
  }

  /** Strings not of the form digits-h-digits give 0: "invalid" and "7:30". */
  lemma TimeToDecimalRejects()
    ensures TimeToDecimal("invalid") == 0.0
    ensures TimeToDecimal("7:30") == 0.0
  {
    assert IndexOf("7:30", 'h') == 4;
    assert IndexOf("invalid", 'h') == 7;
  }

  /** A single-digit hour and minutes below 60 render as four characters. */
  lemma MinutesToTextDigits(h: nat, m: nat)
    requires h < 10 && m < 60
    ensures MinutesToText(h * 60 + m) == [DigitChar(h), 'h', DigitChar(m / 10), DigitChar(m % 10)]
  {
    MinutesToTextParts(h, m);
    PadStart2Digits(m);
    assert IntToString(h) == [DigitChar(h)];
  }

  /** A time within half a minute of h:(10 * tens + units), h a single digit, renders as four characters. */
  lemma DecimalToTimeNear(decimalHours: real, h: nat, tens: nat, units: nat)
    requires h < 10 && tens < 6 && units < 10
    requires (h * 60 + tens * 10 + units) as real - 0.5 <= decimalHours * 60.0
    requires decimalHours * 60.0 < (h * 60 + tens * 10 + units) as real + 0.5
    ensures DecimalToTime(decimalHours) == [DigitChar(h), 'h', DigitChar(tens), DigitChar(units)]
  {
    var m := tens * 10 + units;
    DecimalToTimeIsNearestMinute(decimalHours);
    RoundNear(decimalHours * 60.0, h * 60 + m);
    MinutesToTextDigits(h, m);
    assert m / 10 == tens && m % 10 == units;
  }

  /** The character sequences of the asserted renderings. */
  lemma ClockLiterals()
    ensures [DigitChar(7), 'h', DigitChar(3), DigitChar(0)] == "7h30"
    ensures [DigitChar(8), 'h', DigitChar(0), DigitChar(0)] == "8h00"
    ensures [DigitChar(7), 'h', DigitChar(0), DigitChar(5)] == "7h05"
  {
  }

  /** The asserted rendering of half past: 7.5 gives "7h30". */
  lemma DecimalToTimeHalfHour(decimalHours: real)
    requires decimalHours == 7.5
    ensures DecimalToTime(decimalHours) == "7h30"
  {
    DecimalToTimeNear(decimalHours, 7, 3, 0);
    ClockLiterals();
  }

  /** A fraction of a minute past is rounded away: 7.501 also gives "7h30". */
  lemma DecimalToTimeJustPastHalf(decimalHours: real)
    requires decimalHours == 7.501
    ensures DecimalToTime(decimalHours) == "7h30"
  {
    DecimalToTimeNear(decimalHours, 7, 3, 0);
    ClockLiterals();
  }

  /** A whole hour: 8.0 gives "8h00". */
  lemma DecimalToTimeWholeHour(decimalHours: real)
    requires decimalHours == 8.0
    ensures DecimalToTime(decimalHours) == "8h00"
  {
    DecimalToTimeNear(decimalHours, 8, 0, 0);
    ClockLiterals();
  }

  /** 7.999 rounds up to a full hour, which is carried: "8h00". */
  lemma DecimalToTimeCarries(decimalHours: real)
    requires decimalHours == 7.999
    ensures DecimalToTime(decimalHours) == "8h00"
  {
    DecimalToTimeNear(decimalHours, 8, 0, 0);
    ClockLiterals();
  }

  /** Minutes below ten are padded: 7.083 gives "7h05". */
  lemma DecimalToTimePadding(decimalHours: real)
    requires decimalHours == 7.083
    ensures DecimalToTime(decimalHours) == "7h05"
  {
    DecimalToTimeNear(decimalHours, 7, 0, 5);
    ClockLiterals();
  }
}
