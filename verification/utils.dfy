/** Scoring and formatting helpers of the general utility module. */
module Utils {
  import opened Numbers
  import opened Text

  /** formatDuration for a whole, non-negative number of minutes. */
  function FormatDuration(minutes: nat): (r: string)
    ensures r != [] && r[|r| - 1] == (if minutes >= 60 && minutes % 60 == 0 then 'h' else 'm')
  {
    var hours := minutes / 60;
    var mins := minutes % 60;
    if hours == 0 then NatToString(mins) + "m"
    else if mins == 0 then NatToString(hours) + "h"
    else NatToString(hours) + "h " + NatToString(mins) + "m"
  }

  /** Under an hour is "Mm", a whole number of hours is "Hh", anything else "Hh Mm" with 1 <= M <= 59. */
  lemma FormatDurationCases(minutes: nat)
    ensures minutes < 60 ==> FormatDuration(minutes) == NatToString(minutes) + "m"
    ensures minutes >= 60 && minutes % 60 == 0 ==> FormatDuration(minutes) == NatToString(minutes / 60) + "h"
    ensures minutes >= 60 && minutes % 60 != 0 ==>
      exists h: nat, m: nat :: 1 <= h && 1 <= m <= 59 && h * 60 + m == minutes &&
        FormatDuration(minutes) == NatToString(h) + "h " + NatToString(m) + "m"
  {
    if minutes >= 60 && minutes % 60 != 0 {
      var h, m := minutes / 60, minutes % 60;
      assert h * 60 + m == minutes;
    }
  }

  datatype HRVInterpretation = HighHRV | NormalHRV | LowHRV

  /** The optimal range of a biomarker. */
  datatype Range = Range(min: real, max: real)

  /**
   * interpretHRV: the reading as a percentage of the baseline; the `range` argument is
   * accepted and ignored. A zero baseline (a non-finite percentage) is outside the model.
   */
  function InterpretHRV(value: real, baseline: real, range: Range): (r: HRVInterpretation)
    requires baseline != 0.0
    ensures r == HighHRV <==> value / baseline * 100.0 >= 110.0
    ensures r == LowHRV <==> value / baseline * 100.0 < 90.0
  {
    var percentage := value / baseline * 100.0;
    if percentage >= 110.0 then HighHRV
    else if percentage >= 90.0 && percentage < 110.0 then NormalHRV
    else LowHRV
  }

  /** High iff at least 110% of baseline, normal iff in [90%, 110%), low otherwise; the range plays no part. */
  lemma InterpretHRVBands(value: real, baseline: real, range: Range, other: Range)
    requires baseline != 0.0
    ensures InterpretHRV(value, baseline, range) == HighHRV <==> value / baseline * 100.0 >= 110.0
    ensures InterpretHRV(value, baseline, range) == NormalHRV <==> 90.0 <= value / baseline * 100.0 < 110.0
    ensures InterpretHRV(value, baseline, range) == LowHRV <==> value / baseline * 100.0 < 90.0
    ensures InterpretHRV(value, baseline, range) == InterpretHRV(value, baseline, other)
  {
  }

  datatype ReadinessStatus = Optimal | GoodStatus | Fair | LowStatus

  datatype Readiness = Readiness(score: int, status: ReadinessStatus)

  /** The three capped factors of calculateReadiness. */
  function HrvFactor(hrv: real): real { MinReal(hrv / 50.0 * 40.0, 40.0) }
  function SleepFactor(sleep: real): real { MinReal(sleep / 8.0 * 40.0, 40.0) }
  function RhrFactor(rhr: real): real requires rhr != 0.0 { MinReal(70.0 / rhr * 20.0, 20.0) }

  function StatusOf(score: int): ReadinessStatus {
    if score >= 80 then Optimal
    else if score >= 60 then GoodStatus
    else if score >= 40 then Fair
    else LowStatus
  }

  /**
   * calculateReadiness: the rounded sum of three factors capped at 40, 40 and 20, so never
   * above 100, and not negative for non-negative HRV and sleep and a positive resting rate;
   * the status is read from the rounded score.
   */
  function CalculateReadiness(hrv: real, sleep: real, rhr: real): (r: Readiness)
    requires rhr != 0.0
    ensures r.score == Round(MinReal(hrv / 50.0 * 40.0, 40.0) + MinReal(sleep / 8.0 * 40.0, 40.0) + MinReal(70.0 / rhr * 20.0, 20.0))
    ensures r.score <= 100
    ensures hrv >= 0.0 && sleep >= 0.0 && rhr > 0.0 ==> r.score >= 0
    ensures r.status == Optimal <==> r.score >= 80
    ensures r.status == GoodStatus <==> 60 <= r.score < 80
    ensures r.status == Fair <==> 40 <= r.score < 60
    ensures r.status == LowStatus <==> r.score < 40
  {
    var score := Round(HrvFactor(hrv) + SleepFactor(sleep) + RhrFactor(rhr));
    ReadinessSumBounds(hrv, sleep, rhr);
    Readiness(score, StatusOf(score))
  }

  lemma ReadinessSumBounds(hrv: real, sleep: real, rhr: real)
    requires rhr != 0.0
    ensures Round(HrvFactor(hrv) + SleepFactor(sleep) + RhrFactor(rhr)) <= 100
    ensures hrv >= 0.0 && sleep >= 0.0 && rhr > 0.0 ==> Round(HrvFactor(hrv) + SleepFactor(sleep) + RhrFactor(rhr)) >= 0
  {
    RoundMonotone(HrvFactor(hrv) + SleepFactor(sleep) + RhrFactor(rhr), 100.0);
    RoundOfInt(100);
    if hrv >= 0.0 && sleep >= 0.0 && rhr > 0.0 {
      assert 70.0 / rhr > 0.0;
      RoundMonotone(0.0, HrvFactor(hrv) + SleepFactor(sleep) + RhrFactor(rhr));
      RoundOfInt(0);
    }
  }

  /** More HRV or more sleep never lowers the readiness score. */
  lemma ReadinessMonotone(hrv1: real, hrv2: real, sleep1: real, sleep2: real, rhr: real)
    requires rhr != 0.0 && hrv1 <= hrv2 && sleep1 <= sleep2
    ensures CalculateReadiness(hrv1, sleep1, rhr).score <= CalculateReadiness(hrv2, sleep2, rhr).score
  {
    assert HrvFactor(hrv1) <= HrvFactor(hrv2);
    assert SleepFactor(sleep1) <= SleepFactor(sleep2);
    RoundMonotone(HrvFactor(hrv1) + SleepFactor(sleep1) + RhrFactor(rhr), HrvFactor(hrv2) + SleepFactor(sleep2) + RhrFactor(rhr));
  }

  /** From 50 ms HRV, 8 hours of sleep and a resting rate of at most 70, the score is the full 100. */
  lemma ReadinessFullMarks(hrv: real, sleep: real, rhr: real)
    requires hrv >= 50.0 && sleep >= 8.0 && 0.0 < rhr <= 70.0
    ensures CalculateReadiness(hrv, sleep, rhr) == Readiness(100, Optimal)
  {
    assert 70.0 / rhr >= 1.0;
    RoundOfInt(100);
  }

  /** Half the HRV and sleep targets at a resting rate of 70 give 20 + 20 + 20, a good 60. */
  lemma ReadinessExample()
    ensures CalculateReadiness(25.0, 4.0, 70.0) == Readiness(60, GoodStatus)
  {
    assert HrvFactor(25.0) + SleepFactor(4.0) + RhrFactor(70.0) == 60.0;
    RoundOfInt(60);
  }

  /**
   * calculateStrain: min(round(strain), 100) with no lower clamp; a zero HRV (a non-finite
   * strain) is outside the model.
   */
  function CalculateStrain(intensity: real, duration: real, hrVariability: real): (strain: int)
    requires hrVariability != 0.0
    ensures strain <= 100
    ensures Round(intensity * (duration / 60.0) * (100.0 / hrVariability) * 10.0) <= 100 ==>
      strain == Round(intensity * (duration / 60.0) * (100.0 / hrVariability) * 10.0)
    ensures Round(intensity * (duration / 60.0) * (100.0 / hrVariability) * 10.0) >= 100 ==> strain == 100
  {
    var raw := intensity * (duration / 60.0) * (100.0 / hrVariability) * 10.0;
    if Round(raw) < 100 then Round(raw) else 100
  }

  /** The strain is negative whenever the raw value rounds below zero: nothing clamps it from below. */
  lemma StrainHasNoLowerClamp()
    ensures CalculateStrain(-10.0, 60.0, 100.0) == -100
  {
    assert -10.0 * (60.0 / 60.0) * (100.0 / 100.0) * 10.0 == -100.0;
    RoundOfInt(-100);
  }

  /** With a positive HRV and a non-negative duration, a harder session never gives a lower strain. */
  lemma StrainMonotoneInIntensity(i1: real, i2: real, duration: real, hrVariability: real)
    requires i1 <= i2 && duration >= 0.0 && hrVariability > 0.0
    ensures CalculateStrain(i1, duration, hrVariability) <= CalculateStrain(i2, duration, hrVariability)
  {
    var k := (duration / 60.0) * (100.0 / hrVariability) * 10.0;
    assert k >= 0.0;
    assert i1 * (duration / 60.0) * (100.0 / hrVariability) * 10.0 == i1 * k;
    assert i2 * (duration / 60.0) * (100.0 / hrVariability) * 10.0 == i2 * k;
    assert i1 * k <= i2 * k;
    RoundMonotone(i1 * k, i2 * k);
  }

  datatype StatusColor = Success | Caution | CriticalColor

  /** getStatusColor: inside the range is success; outside, critical when far (over 20% of its width). */
  function GetStatusColor(value: real, optimalRange: Range): (c: StatusColor)
    ensures c == Success <==> optimalRange.min <= value <= optimalRange.max
  {
    if value >= optimalRange.min && value <= optimalRange.max then Success
    else
      var distToMin := AbsReal(value - optimalRange.min);
      var distToMax := AbsReal(value - optimalRange.max);
      var distToRange := MinReal(distToMin, distToMax);
      if distToRange > (optimalRange.max - optimalRange.min) * 0.2 then CriticalColor else Caution
  }

  /**
   * For a well-formed range: success exactly inside it; below it, critical iff the gap to
   * the minimum exceeds a fifth of the width; above it, the same with the maximum.
   */
  lemma StatusColorByGap(value: real, r: Range)
    requires r.min <= r.max
    ensures GetStatusColor(value, r) == Success <==> r.min <= value <= r.max
    ensures value < r.min ==> (GetStatusColor(value, r) == CriticalColor <==> r.min - value > (r.max - r.min) * 0.2)
    ensures value > r.max ==> (GetStatusColor(value, r) == CriticalColor <==> value - r.max > (r.max - r.min) * 0.2)
  {
  }

  datatype Coordinates = Coordinates(lat: real, lng: real)

  /** Rounds one coordinate to two decimals (round half up on the hundredths). */
  function MaskCoordinate(x: real): (r: real)
    ensures (r * 100.0).Floor as real == r * 100.0
    ensures AbsReal(r - x) <= 0.005
  {
    Round(x * 100.0) as real / 100.0
  }

  /** maskCoordinates: `precision` is accepted and ignored. */
  function MaskCoordinates(lat: real, lng: real, precision: real): (c: Coordinates)
    ensures (c.lat * 100.0).Floor as real == c.lat * 100.0 && AbsReal(c.lat - lat) <= 0.005
    ensures (c.lng * 100.0).Floor as real == c.lng * 100.0 && AbsReal(c.lng - lng) <= 0.005
  {
    Coordinates(MaskCoordinate(lat), MaskCoordinate(lng))
  }

  /** Masking twice is masking once, whatever the precision arguments. */
  lemma MaskCoordinatesIdempotent(lat: real, lng: real, p: real, q: real)
    ensures var c := MaskCoordinates(lat, lng, p);
      MaskCoordinates(c.lat, c.lng, q) == c
  {
    var n := Round(lat * 100.0);
    var m := Round(lng * 100.0);
    assert (n as real / 100.0) * 100.0 == n as real;
    assert (m as real / 100.0) * 100.0 == m as real;
    RoundOfInt(n);
    RoundOfInt(m);
  }
}
