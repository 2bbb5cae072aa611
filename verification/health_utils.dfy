/**
 * The static (offline) health summaries: sleep-time parsing and formatting, the short
 * summary paragraph and the detailed analysis with its fixed glossary.
 */
module HealthUtils {
  import opened Numbers
  import opened Text
  import TimeConversion

  /** A sleep figure as the dashboard holds it: decimal hours or text such as "7h30". */
  datatype SleepValue = Hours(hours: real) | Clock(text: string)

  /** The regular expression /^(\d+)h(\d+)?$/: digits, the letter h, optional digits. */
  predicate MatchesSleepTime(s: string) {
    var k := IndexOf(s, 'h');
    1 <= k < |s| && IsDigits(s[..k]) && IsDigits(s[k + 1..])
  }

  /** A number is returned as is; text is read as hours and minutes, 7.5 when it does not match. */
  function ParseSleepTime(timeStr: SleepValue): (hours: real)
    ensures timeStr.Hours? ==> hours == timeStr.hours
    ensures timeStr.Clock? && !MatchesSleepTime(timeStr.text) ==> hours == 7.5
  {
    match timeStr
    case Hours(x) => x
    case Clock(s) =>
      if !MatchesSleepTime(s) then 7.5
      else
        var k := IndexOf(s, 'h');
        var minutes := if s[k + 1..] != [] then DigitsValue(s[k + 1..]) else 0;
        DigitsValue(s[..k]) as real + minutes as real / 60.0
  }

  /** Digits, h, and optional digits are read as hours plus minutes / 60. */
  lemma ParseSleepTimeOfParts(hours: string, minutes: string)
    requires 1 <= |hours| && IsDigits(hours) && IsDigits(minutes)
    ensures MatchesSleepTime(hours + "h" + minutes)
    ensures ParseSleepTime(Clock(hours + "h" + minutes)) ==
      DigitsValue(hours) as real + (if minutes == [] then 0 else DigitsValue(minutes)) as real / 60.0
  {
    var s := hours + "h" + minutes;
    assert forall i :: 0 <= i < |hours| ==> s[i] == hours[i] && s[i] != 'h';
    assert s[|hours|] == 'h';
    assert IndexOf(s, 'h') == |hours|;
    assert s[..|hours|] == hours;
    assert s[|hours| + 1..] == minutes;
  }

  /** Whole hours, then minutes rounded and padded to two digits; there is no carry into the hour. */
  function FormatSleepTime(hours: real): (r: string)
    ensures |r| >= 4 && r[|r| - 3] == 'h'
  {
    var h := Floor(hours);
    var m := Round((hours - h as real) * 60.0);
    if m == 0 then IntToString(h) + "h00"
    else
      assert 0 < m <= 60;
      PadStart2Parses(m);
      IntToString(h) + "h" + PadStart2(IntToString(m))
  }

  /** The minutes part of FormatSleepTime: the fractional hour in minutes, rounded, 0 to 60. */
  function SleepMinutes(hours: real): (m: nat)
    ensures m <= 60
  {
    var f := hours - Floor(hours) as real;
    assert 0.0 <= f * 60.0 < 60.0;
    Round(f * 60.0)
  }

  /** The rendering is the floor, "h", and the padded rounded minutes, both branches alike. */
  lemma FormatSleepTimeShape(hours: real)
    ensures FormatSleepTime(hours) == IntToString(Floor(hours)) + "h" + PadStart2(NatToString(SleepMinutes(hours)))
  {
    var m := SleepMinutes(hours);
    if m == 0 {
      assert PadStart2(NatToString(0)) == "00";
    } else {
      assert IntToString(m) == NatToString(m);
    }
  }

  /** Unless the minutes round up to 60, the rendering agrees with decimalToTime. */
  lemma FormatSleepTimeAgreesWithDecimalToTime(hours: real)
    requires SleepMinutes(hours) < 60
    ensures FormatSleepTime(hours) == TimeConversion.DecimalToTime(hours)
  {
    FormatSleepTimeShape(hours);
    assert IntToString(SleepMinutes(hours)) == NatToString(SleepMinutes(hours));
  }

  /** Without the carry a time just short of the hour renders as sixty minutes: 7.999 gives "7h60". */
  lemma FormatSleepTimeSixtyMinutes(hours: real)
    requires hours == 7.999
    ensures FormatSleepTime(hours) == "7h60"
    ensures TimeConversion.DecimalToTime(hours) == "8h00"
  {
    assert Floor(hours) == 7;
    assert SleepMinutes(hours) == 60;
    FormatSleepTimeShape(hours);
    PadStart2Digits(60);
    assert IntToString(7) == [DigitChar(7)];
    assert [DigitChar(7), 'h', DigitChar(6), DigitChar(0)] == "7h60";
    TimeConversion.DecimalToTimeCarries(hours);
  }

  /** Hours and minutes below 60, formatted and parsed back, give the same number of hours. */
  lemma {:induction false} FormatThenParse(h: nat, m: nat)
    requires m < 60
    ensures ParseSleepTime(Clock(FormatSleepTime(h as real + m as real / 60.0))) == h as real + m as real / 60.0
  {
    FormatWholeMinutes(h, m);
    PadStart2Parses(m);
    NatToStringParses(h);
    ParseSleepTimeOfParts(NatToString(h), PadStart2(NatToString(m)));
  }

  /** A time that is a whole number of minutes formats as its hours and padded minutes. */
  lemma FormatWholeMinutes(h: nat, m: nat)
    requires m < 60
    ensures FormatSleepTime(h as real + m as real / 60.0) == NatToString(h) + "h" + PadStart2(NatToString(m))
  {
    var x := h as real + m as real / 60.0;
    assert 0.0 <= m as real / 60.0 < 1.0;
    assert Floor(x) == h;
    assert (x - h as real) * 60.0 == m as real;
    RoundOfInt(m);
    assert SleepMinutes(x) == m;
    FormatSleepTimeShape(x);
  }

  /** The figures a summary is built from. */
  datatype HealthData = HealthData(
    recovery: real, strain: real, hrv: real, rhr: real,
    sleep: SleepValue, spo2: real, calories: real)

  /** Sleep as shown in the summary: text as given, a number formatted as "7h30". */
  function SleepDisplay(sleep: SleepValue): (display: string)
    ensures sleep.Clock? ==> display == sleep.text
    ensures sleep.Hours? ==> display == FormatSleepTime(sleep.hours)
  {
    match sleep
    case Clock(t) => t
    case Hours(x) => FormatSleepTime(x)
  }

  datatype RecoveryBand = WellRecovered | Moderation | Tired

  /** The three recovery bands of both summaries: 75 and above, 50 and above, below 50. */
  function BandOf(recovery: real): (band: RecoveryBand)
    ensures band == WellRecovered <==> recovery >= 75.0
    ensures band == Moderation <==> 50.0 <= recovery < 75.0
    ensures band == Tired <==> recovery < 50.0
  {
    if recovery >= 75.0 then WellRecovered else if recovery >= 50.0 then Moderation else Tired
  }

  /** The fixed phrases of both summaries; PhraseText holds each one's exact wording. */
  datatype Phrase =
    | RecoveredWell | ReadyForIntense | DecentShape | NeedsModeration | BitTired | TakeItEasy
    | Separator
    | GoForIt | HeartAtRest | BeatsPerMinuteEnd | FavorLight | StillRecovering | FavorRest
    | IntenseEffort | MovedWell | StrainEnd
    | SleptTooLittle | GoToBedEarlier | GoodSleep | GoodSleepEnd
    | OverallState | CombinesHrv | RestingRate | SleepOpen | OxygenOpen | ScoreIndicates
    | WeeklyTrend | Indicating | Expenditure | KcalEnd
    | WellRested | ModerateCondition | NeedsRest
    | LightActivity | ModerateActivity | HighLoad

  function PhraseText(p: Phrase): string {
    match p
    case RecoveredWell => "Your body recovered well ("
    case ReadyForIntense => "%), you're ready for an intense session today"
    case DecentShape => "You're in decent shape ("
    case NeedsModeration => "%), but your body needs moderation"
    case BitTired => "You're a bit tired today ("
    case TakeItEasy => "%), take it easy"
    case Separator => ". "
    case GoForIt => "Go for cardio or weights! Your HRV is good ("
    case HeartAtRest => "ms) and your heart is at rest ("
    case BeatsPerMinuteEnd => " bpm)."
    case FavorLight => "Favor light to moderate training. Your HRV of "
    case StillRecovering => "ms indicates you're still recovering."
    case FavorRest => "Favor walking or yoga rather than intense effort. Your body needs rest."
    case IntenseEffort => " Yesterday's effort was intense (Strain "
    case MovedWell => " You moved well yesterday (Strain "
    case StrainEnd => ")."
    case SleptTooLittle => " Warning, you didn't sleep enough ("
    case GoToBedEarlier => "). Try to go to bed earlier tonight."
    case GoodSleep => " Good sleep last night ("
    case GoodSleepEnd => "h)!"
    case OverallState => "**Overall state:** Your recovery score of **"
    case CombinesHrv => "%** combines your HRV ("
    case RestingRate => "ms), resting heart rate ("
    case SleepOpen => " bpm), sleep ("
    case OxygenOpen => "h), and oxygenation ("
    case ScoreIndicates => "%). This score indicates that "
    case WeeklyTrend => ".\n\n**Weekly trend:** Your current Strain is **"
    case Indicating => "**, indicating "
    case Expenditure => ". Your energy expenditure is **"
    case KcalEnd => " kcal** today."
    case WellRested => "your body is well-rested and ready for significant effort"
    case ModerateCondition => "your body is in moderate condition, favor light training"
    case NeedsRest => "your body needs rest, limit intense efforts"
    case LightActivity => "light activity"
    case ModerateActivity => "moderate to intense activity"
    case HighLoad => "high load on your cardiovascular system"
  }

  /** One part of a summary: a fixed phrase, text interpolated as given, or a number. */
  datatype Part = Say(phrase: Phrase) | Show(text: string) | Figure(value: real)

  /** The summary as template pieces (numbers left to JavaScript's rendering). */
  function Rendered(parts: seq<Part>): seq<Piece> {
    if parts == [] then []
    else
      var head := match parts[0]
        case Say(p) => Lit(PhraseText(p))
        case Show(t) => Lit(t)
        case Figure(x) => Num(x);
      [head] + Rendered(parts[1..])
  }

  /** The opening sentence: the band's opening phrase, the recovery figure, the band's close. */
  function GeneralState(band: RecoveryBand, recovery: real): (r: seq<Part>)
    ensures |r| == 3 && r[1] == Figure(recovery)
    ensures r[0] == Say(RecoveredWell) <==> band == WellRecovered
    ensures r[0] == Say(DecentShape) <==> band == Moderation
    ensures r[0] == Say(BitTired) <==> band == Tired
    ensures r[2] == Say(ReadyForIntense) <==> band == WellRecovered
    ensures r[2] == Say(NeedsModeration) <==> band == Moderation
    ensures r[2] == Say(TakeItEasy) <==> band == Tired
  {
    match band
    case WellRecovered => [Say(RecoveredWell), Figure(recovery), Say(ReadyForIntense)]
    case Moderation => [Say(DecentShape), Figure(recovery), Say(NeedsModeration)]
    case Tired => [Say(BitTired), Figure(recovery), Say(TakeItEasy)]
  }

  /** The advice: training hard with both heart figures, light training with the HRV, or rest. */
  function Recommendation(band: RecoveryBand, hrv: real, rhr: real): (r: seq<Part>)
    ensures r != []
    ensures r[0] == Say(GoForIt) <==> band == WellRecovered
    ensures r[0] == Say(FavorLight) <==> band == Moderation
    ensures r[0] == Say(FavorRest) <==> band == Tired
    ensures band != Tired ==> |r| >= 2 && r[1] == Figure(hrv)
    ensures band == WellRecovered ==> |r| == 5 && r[3] == Figure(rhr)
    ensures band != WellRecovered ==> forall i :: 0 <= i < |r| ==> !r[i].Figure? || r[i] == Figure(hrv)
  {
    match band
    case WellRecovered => [Say(GoForIt), Figure(hrv), Say(HeartAtRest), Figure(rhr), Say(BeatsPerMinuteEnd)]
    case Moderation => [Say(FavorLight), Figure(hrv), Say(StillRecovering)]
    case Tired => [Say(FavorRest)]
  }

  /** Nothing for a strain of 10 or less; otherwise the strain, called intense above 15. */
  function StrainComment(strain: real): (c: seq<Part>)
    ensures c == [] <==> strain <= 10.0
    ensures c != [] ==> |c| == 3 && c[1] == Figure(strain)
    ensures c != [] ==> (c[0] == Say(IntenseEffort) <==> strain > 15.0)
    ensures c != [] ==> (c[0] == Say(MovedWell) <==> strain <= 15.0)
    ensures c != [] ==> c[2] == Say(StrainEnd)
  {
    if strain > 15.0 then [Say(IntenseEffort), Figure(strain), Say(StrainEnd)]
    else if strain > 10.0 then [Say(MovedWell), Figure(strain), Say(StrainEnd)]
    else []
  }

  /**
   * A warning with the displayed sleep below 6.5 hours, praise with the parsed number of hours
   * from 7.5 hours (the second assignment of the praise replaces the first), nothing between.
   */
  function SleepComment(sleep: real, sleepDisplay: string): (c: seq<Part>)
    ensures c == [] <==> 6.5 <= sleep < 7.5
    ensures sleep < 6.5 ==> c == [Say(SleptTooLittle), Show(sleepDisplay), Say(GoToBedEarlier)]
    ensures sleep >= 7.5 ==> c == [Say(GoodSleep), Figure(sleep), Say(GoodSleepEnd)]
  {
    if sleep < 6.5 then [Say(SleptTooLittle), Show(sleepDisplay), Say(GoToBedEarlier)]
    else if sleep >= 7.5 then [Say(GoodSleep), Figure(sleep), Say(GoodSleepEnd)]
    else []
  }

  /** getStaticSummary: general state, ". ", recommendation, strain comment, sleep comment. */
  function GetStaticSummary(data: HealthData): (s: seq<Part>)
    ensures |s| >= 5 && s[1] == Figure(data.recovery) && s[3] == Say(Separator)
    ensures s[0] == Say(RecoveredWell) && s[4] == Say(GoForIt) <==> data.recovery >= 75.0
    ensures s[0] == Say(DecentShape) && s[4] == Say(FavorLight) <==> 50.0 <= data.recovery < 75.0
    ensures s[0] == Say(BitTired) && s[4] == Say(FavorRest) <==> data.recovery < 50.0
    ensures s[2] == Say(ReadyForIntense) <==> data.recovery >= 75.0
    ensures s[2] == Say(NeedsModeration) <==> 50.0 <= data.recovery < 75.0
    ensures s[2] == Say(TakeItEasy) <==> data.recovery < 50.0
  {
    var band := BandOf(data.recovery);
    GeneralState(band, data.recovery) + [Say(Separator)] + Recommendation(band, data.hrv, data.rhr) + Comments(data)
  }

  /** The strain comment followed by the sleep comment, which reads the parsed sleep. */
  function Comments(data: HealthData): seq<Part> {
    StrainComment(data.strain) + SleepComment(ParseSleepTime(data.sleep), SleepDisplay(data.sleep))
  }

  /** Every summary opens by reporting the recovery, and mentions the HRV from 50 on and the resting rate from 75 on. */
  lemma SummaryMentions(data: HealthData)
    ensures var s := GetStaticSummary(data);
      && s[1] == Figure(data.recovery)
      && (data.recovery >= 50.0 ==> Figure(data.hrv) in s)
      && (data.recovery >= 75.0 ==> Figure(data.rhr) in s)
  {
    var band := BandOf(data.recovery);
    var head := GeneralState(band, data.recovery) + [Say(Separator)];
    var rec := Recommendation(band, data.hrv, data.rhr);
    var tail := Comments(data);
    var s := GetStaticSummary(data);
    assert s == head + rec + tail;
    assert |head| == 4;
    if band != Tired {
      assert s[5] == rec[1] == Figure(data.hrv);
    }
    if band == WellRecovered {
      assert s[7] == rec[3] == Figure(data.rhr);
    }
  }

  /** Every summary ends with the strain comment and the sleep comment of its figures. */
  lemma SummaryEndsWithComments(data: HealthData)
    ensures var s := GetStaticSummary(data);
      var tail := StrainComment(data.strain) + SleepComment(ParseSleepTime(data.sleep), SleepDisplay(data.sleep));
      |tail| <= |s| && s[|s| - |tail|..] == tail
  {
    var band := BandOf(data.recovery);
    var head := GeneralState(band, data.recovery) + [Say(Separator)] + Recommendation(band, data.hrv, data.rhr);
    assert GetStaticSummary(data) == head + Comments(data);
  }

  /** A sleep text that does not match the pattern counts as 7.5 hours and is praised. */
  lemma UnreadableSleepIsPraised(data: HealthData)
    requires data.sleep.Clock? && !MatchesSleepTime(data.sleep.text)
    ensures var s := GetStaticSummary(data);
      s[|s| - 3..] == [Say(GoodSleep), Figure(7.5), Say(GoodSleepEnd)]
  {
    SummaryEndsWithComments(data);
  }

  /** The four questions of the glossary; Question and Answer hold their exact wording. */
  datatype GlossaryTopic = HowRecovery | HrvDaily | WhyStrain | ReadSleep

  function Question(topic: GlossaryTopic): string {
    match topic
    case HowRecovery => "How is Recovery calculated?"
    case HrvDaily => "What is HRV used for daily?"
    case WhyStrain => "Why monitor Strain?"
    case ReadSleep => "How to interpret my Sleep?"
  }

  function Answer(topic: GlossaryTopic): string {
    match topic
    case HowRecovery =>
      "Your recovery score combines multiple data points: your HRV (variation between heartbeats), resting heart rate, sleep quality, and oxygenation level (SpO2). The algorithm compares all this to your usual values and recent training load."
    case HrvDaily =>
      "Your HRV tells you if your body is ready for effort or needs rest. High HRV = balanced nervous system = you can train hard. Low HRV = your body is stressed or tired = go easy."
    case WhyStrain =>
      "Strain measures how much you stress your heart during the day. It's like an effort counter that increases as you do activities. If your Strain is high for several days in a row while your recovery is low, it's a signal to ease off."
    case ReadSleep =>
      "The sensor analyzes your total sleep duration, but also its quality (deep phases, movement). Good sleep (7h30+) increases your recovery. Short sleep (<6h) drops it, even if you feel fine."
  }

  datatype DetailedSummary = DetailedSummary(analysis: seq<Part>, glossary: seq<GlossaryTopic>)

  /** The fixed glossary, in its order. */
  const Glossary: seq<GlossaryTopic> := [HowRecovery, HrvDaily, WhyStrain, ReadSleep]

  function RecoveryPhrase(recovery: real): (phrase: Phrase)
    ensures phrase == WellRested <==> BandOf(recovery) == WellRecovered
    ensures phrase == ModerateCondition <==> BandOf(recovery) == Moderation
    ensures phrase == NeedsRest <==> BandOf(recovery) == Tired
  {
    if recovery >= 75.0 then WellRested
    else if recovery >= 50.0 then ModerateCondition
    else NeedsRest
  }

  function StrainPhrase(strain: real): (phrase: Phrase)
    ensures phrase == LightActivity <==> strain <= 10.0
    ensures phrase == ModerateActivity <==> 10.0 < strain <= 15.0
    ensures phrase == HighLoad <==> strain > 15.0
  {
    if strain > 15.0 then HighLoad
    else if strain > 10.0 then ModerateActivity
    else LightActivity
  }

  /** The three phrases that say what the recovery score indicates. */
  predicate IsRecoveryPhrase(part: Part) {
    part in {Say(WellRested), Say(ModerateCondition), Say(NeedsRest)}
  }

  /** The three phrases that say what the strain indicates. */
  predicate IsStrainPhrase(part: Part) {
    part in {Say(LightActivity), Say(ModerateActivity), Say(HighLoad)}
  }

  /** Sleep interpolated unconverted: text as given, a number as a number. */
  function RawSleep(sleep: SleepValue): Part {
    match sleep
    case Clock(t) => Show(t)
    case Hours(x) => Figure(x)
  }

  /** The analysis paragraph: the figures, the recovery phrase, the strain and its phrase, the calories. */
  function Analysis(data: HealthData): seq<Part> {
    Opening(data) + [Say(RecoveryPhrase(data.recovery))] + Trend(data.strain) + [Say(StrainPhrase(data.strain))]
      + Expenditures(data.calories)
  }

  /** The overall-state sentence up to the recovery phrase. */
  function Opening(data: HealthData): (o: seq<Part>)
    ensures |o| == 11 && NoBandPhrase(o)
  {
    [ Say(OverallState), Figure(data.recovery),
      Say(CombinesHrv), Figure(data.hrv),
      Say(RestingRate), Figure(data.rhr),
      Say(SleepOpen), RawSleep(data.sleep),
      Say(OxygenOpen), Figure(data.spo2),
      Say(ScoreIndicates)]
  }

  /** The weekly-trend sentence up to the strain phrase. */
  function Trend(strain: real): (t: seq<Part>)
    ensures |t| == 3 && NoBandPhrase(t)
  {
    [Say(WeeklyTrend), Figure(strain), Say(Indicating)]
  }

  /** The energy-expenditure sentence. */
  function Expenditures(calories: real): (e: seq<Part>)
    ensures |e| == 3 && NoBandPhrase(e)
  {
    [Say(Expenditure), Figure(calories), Say(KcalEnd)]
  }

  predicate NoBandPhrase(s: seq<Part>) {
    forall q :: q in s ==> !IsRecoveryPhrase(q) && !IsStrainPhrase(q)
  }

  /** In x + [p] + y, a property no part of x or y has can only hold at p's slot. */
  lemma OnlyAtSlot(isBand: Part -> bool, x: seq<Part>, p: Part, y: seq<Part>)
    requires forall q :: q in x ==> !isBand(q)
    requires forall q :: q in y ==> !isBand(q)
    ensures forall i :: 0 <= i < |x + [p] + y| && i != |x| ==> !isBand((x + [p] + y)[i])
  {
    forall i | 0 <= i < |x + [p] + y| && i != |x|
      ensures !isBand((x + [p] + y)[i])
    {
      if i < |x| {
        assert (x + [p] + y)[i] == x[i];
      } else {
        assert (x + [p] + y)[i] == y[i - |x| - 1];
      }
    }
  }

  /** getStaticDetailedSummary: the analysis paragraph of the figures and the fixed glossary. */
  function GetStaticDetailedSummary(data: HealthData): (r: DetailedSummary)
    ensures r.glossary == Glossary && |r.glossary| == 4
    ensures Say(RecoveryPhrase(data.recovery)) in r.analysis
    ensures Say(StrainPhrase(data.strain)) in r.analysis
    ensures |r.analysis| == 19
    ensures r.analysis[11] == Say(RecoveryPhrase(data.recovery)) && r.analysis[15] == Say(StrainPhrase(data.strain))
    ensures forall i :: 0 <= i < |r.analysis| && i != 11 ==> !IsRecoveryPhrase(r.analysis[i])
    ensures forall i :: 0 <= i < |r.analysis| && i != 15 ==> !IsStrainPhrase(r.analysis[i])
    ensures r.analysis[1] == Figure(data.recovery) && r.analysis[3] == Figure(data.hrv)
    ensures r.analysis[5] == Figure(data.rhr) && r.analysis[7] == RawSleep(data.sleep)
    ensures r.analysis[9] == Figure(data.spo2) && r.analysis[13] == Figure(data.strain)
    ensures r.analysis[17] == Figure(data.calories)
  {
    AnalysisBandPhrases(data);
    AnalysisFigures(data);
    DetailedSummary(Analysis(data), Glossary)
  }

  /** Each band phrase sits in its own slot and nowhere else. */
  lemma AnalysisBandPhrases(data: HealthData)
    ensures |Analysis(data)| == 19
    ensures Analysis(data)[11] == Say(RecoveryPhrase(data.recovery))
    ensures Analysis(data)[15] == Say(StrainPhrase(data.strain))
    ensures forall i :: 0 <= i < |Analysis(data)| && i != 11 ==> !IsRecoveryPhrase(Analysis(data)[i])
    ensures forall i :: 0 <= i < |Analysis(data)| && i != 15 ==> !IsStrainPhrase(Analysis(data)[i])
  {
    var o, rp, t, sp, e := Opening(data), Say(RecoveryPhrase(data.recovery)), Trend(data.strain),
      Say(StrainPhrase(data.strain)), Expenditures(data.calories);
    assert Analysis(data) == o + [rp] + (t + [sp] + e);
    assert !IsRecoveryPhrase(sp);
    OnlyAtSlot(IsRecoveryPhrase, o, rp, t + [sp] + e);
    assert Analysis(data) == (o + [rp] + t) + [sp] + e;
    assert !IsStrainPhrase(rp);
    OnlyAtSlot(IsStrainPhrase, o + [rp] + t, sp, e);
  }

  /** Each figure sits in its slot of the paragraph. */
  lemma AnalysisFigures(data: HealthData)
    ensures |Analysis(data)| == 19
    ensures Analysis(data)[1] == Figure(data.recovery) && Analysis(data)[3] == Figure(data.hrv)
    ensures Analysis(data)[5] == Figure(data.rhr) && Analysis(data)[7] == RawSleep(data.sleep)
    ensures Analysis(data)[9] == Figure(data.spo2) && Analysis(data)[13] == Figure(data.strain)
    ensures Analysis(data)[17] == Figure(data.calories)
  {
    var o := Opening(data);
    assert Analysis(data)[..11] == o;
    assert Analysis(data)[12..15] == Trend(data.strain);
    assert Analysis(data)[16..] == Expenditures(data.calories);
  }

  /** The detailed analysis and the short summary describe the same recovery band and strain level. */
  lemma DetailedAgreesWithSummary(data: HealthData)
    ensures GeneralState(BandOf(data.recovery), data.recovery)[0] == Say(RecoveredWell)
      <==> RecoveryPhrase(data.recovery) == WellRested
    ensures GeneralState(BandOf(data.recovery), data.recovery)[0] == Say(BitTired)
      <==> RecoveryPhrase(data.recovery) == NeedsRest
    ensures StrainComment(data.strain) == [] <==> StrainPhrase(data.strain) == LightActivity
    ensures StrainComment(data.strain) != [] && StrainComment(data.strain)[0] == Say(IntenseEffort)
      <==> StrainPhrase(data.strain) == HighLoad
  {
  }

  /** Sleep given as text is followed by the unit again: "7h30" appears as "(7h30h)". */
  lemma TextSleepGetsSecondUnit(data: HealthData)
    requires data.sleep.Clock?
    ensures Analysis(data)[6..9] == [Say(SleepOpen), Show(data.sleep.text), Say(OxygenOpen)]
    ensures PhraseText(OxygenOpen)[0] == 'h'
  {
  }
}
