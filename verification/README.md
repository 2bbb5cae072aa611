# AdaptSport core, modelled in Dafny

This project models the decision logic of AdaptSport, a training-readiness application.

- **Adaptive coach.** It classifies a heart-rate-variability (VFC) reading into a recovery level, a three-session trend and a recovery percentage. It scores each training protocol against the athlete's recovery state. It filters unsafe protocols and ranks the rest with a stable descending sort on an array. It explains the top picks (risk factors, benefits, alternatives) and computes a 0–100 readiness score.
- **Utility scores.** It covers duration formatting, HRV interpretation, readiness and strain scores, status colours and coordinate masking.
- **Health summaries.** These are the static summaries built from the health figures. They include sleep-time parsing and formatting, and the "7h30" ↔ 7.5 conversion helpers of the time-conversion tests.
- **HealthKit transforms.** It covers the sleep transform, the workout intensity and the daily health score.
- **Protocol catalogue and store.** This is the protocol catalogue and the persisted protocol library store: add, add-custom with slug ids, remove, update progress and lookup.
- **Stateful UI components.** These are modelled as classes whose methods change their fields:
  - the location beacon (permission prompt, a five-contact selection, a four-hour countdown);
  - the protocol timer;
  - the privacy-zone settings and the zone editor;
  - the challenge list.
- **Leaderboard.** Percentile tiers, their colours and the search filter.

JavaScript numbers are modelled as exact `real`s. `Math.round` is round-half-up (`floor(x + 0.5)`) and `Math.floor` is `Floor`. Wherever the source clamps, the clamp is explicit.

Messages are modelled as sequences of parts. A part is a fixed phrase (a `Phrase` or a literal text), an embedded number, or an embedded user text. The exact English text of every phrase is given by `PhraseText`.

Step-by-step code is modelled as methods. The local `score` accumulators of the scoring functions, the in-place sort, the explanation loop and the store and component handlers are all methods, each proved equal to a pure specification function. The properties are then proved about those functions as lemmas.

The modules are:

- `AdaptiveCoach` and `ProtocolRanking` (src/lib/adaptive-coach/index.ts);
- `Utils` (src/lib/utils.ts);
- `HealthUtils` (src/utils/healthUtils.ts);
- `TimeConversion` (the helpers of src/__tests__/utils/timeConversion.test.ts);
- `HealthKit` (src/lib/services/healthkit-types.ts);
- `ProtocolData` (src/data/protocols.ts);
- `ProtocolStore` (src/store/useProtocolStore.ts);
- `LocationBeacon`, `ProtocolTimer`, `PrivacySettings`, `PrivacyZoneEditor`, `Challenges` and `Leaderboard` (the components of the same names);
- shared helpers in `Numbers`, `Text` and `Wrappers`.

## Model

| member | source | states |
|---|---|---|
| AdaptiveCoach.AssessVFCLevel | src/lib/adaptive-coach/index.ts:80-86 | each of the five levels holds exactly on its band of the reading: above 100 elite, 70–100 good, 50–70 adequate, 30–50 compromised, below 30 critical |
| AdaptiveCoach.AssessVFCLevelMonotone | src/lib/adaptive-coach/index.ts:80-86 | a higher reading never gives a lower level |
| AdaptiveCoach.CalculateRecoveryPercentage | src/lib/adaptive-coach/index.ts:91-94 | the result lies in [0, 100]; it is value/baseline·100 when that is in range, 100 above and 0 below |
| AdaptiveCoach.RecoveryPercentageMonotone | src/lib/adaptive-coach/index.ts:91-94 | with a positive baseline the percentage is non-decreasing in the reading and saturates at 100 from the baseline up |
| AdaptiveCoach.AssessVFCTrend | src/lib/adaptive-coach/index.ts:99-110 | improving iff both steps rise (more than 5, then more than 2); declining iff both fall by those margins; stable otherwise |
| AdaptiveCoach.SingleSwingIsStable | src/lib/adaptive-coach/index.ts:99-110 | when the earlier step moves by at most 2 the trend is stable, however large the last swing |
| AdaptiveCoach.TrendMirror | src/lib/adaptive-coach/index.ts:99-110 | negating all three readings swaps improving and declining and keeps stable |
| AdaptiveCoach.GetVFCRecommendations | src/lib/adaptive-coach/index.ts:115-147 | three lines for elite, good and adequate, four for compromised and critical; the rest advice appears exactly at the critical level, and first |
| AdaptiveCoach.GenerateVFCAssessment | src/lib/adaptive-coach/index.ts:152-170 | the record carries the given time and reading, the level, the trend from the two earlier readings, the clamped recovery percentage and the level's recommendation list |
| AdaptiveCoach.ProtocolScore | src/lib/adaptive-coach/index.ts:177-207 | the compatibility score lies in [0, 100]; it equals the unclamped weighted sum when that is in range, 100 when the sum is above 100 and 0 when it is below 0 |
| AdaptiveCoach.ScoreProtocolForState | src/lib/adaptive-coach/index.ts:177-207 | the step-by-step accumulation equals the specified score and lies in [0, 100] |
| AdaptiveCoach.CriticalIgnoresAdaptivity | src/lib/adaptive-coach/index.ts:184-204 | at the critical level the low-recovery bonus is withheld, the sum is 10 − fatigue penalty + stress bonus, and two protocols with the same stress rating score alike |
| AdaptiveCoach.CriticalScoreAtMostTen | src/lib/adaptive-coach/index.ts:189-206 | at the critical level, with stress at most 60, no protocol scores above 10 |
| AdaptiveCoach.FatigueAlwaysPenalises | src/lib/adaptive-coach/index.ts:196-206 | crossing the fatigue threshold of 70 lowers the unclamped score by exactly 20 and never raises the score |
| AdaptiveCoach.ReadinessScore | src/lib/adaptive-coach/index.ts:272-293 | the readiness score lies in [0, 100]; it is the rounded weighted sum when that rounds into range, 100 when it rounds above 100 and 0 when it rounds below 0 |
| AdaptiveCoach.CalculateReadinessScore | src/lib/adaptive-coach/index.ts:272-293 | the step-by-step accumulation equals the specified readiness and lies in [0, 100] |
| AdaptiveCoach.ReadinessMonotoneInSleep | src/lib/adaptive-coach/index.ts:283-292 | better sleep quality never lowers readiness |
| AdaptiveCoach.ReadinessExample | src/lib/adaptive-coach/index.ts:272-293 | compromised level with sleep 60, stress 40 and fatigue 30 gives 53 |
| ProtocolRanking.SafeProtocols | src/lib/adaptive-coach/index.ts:218-220 | keeps exactly the protocols that pass the safety check and never lengthens the list; keeps all of them unless the level is critical; order and multiplicity are stated by `SafeProtocolsAppend` and `SafeProtocolsCount` |
| ProtocolRanking.IsSafe | src/lib/adaptive-coach/index.ts:218-220 | no contract of its own; `ExcludedOnlyWhenCriticalAndBelowMinimum` states when a protocol is dropped |
| ProtocolRanking.SafeProtocolsAppend | src/lib/adaptive-coach/index.ts:218-220 | the filter of a concatenation is the concatenation of the filters, so the kept protocols keep catalogue order |
| ProtocolRanking.SafeProtocolsCount | src/lib/adaptive-coach/index.ts:218-220 | a safe protocol is kept as many times as the catalogue lists it, an unsafe one never |
| ProtocolRanking.ExcludedOnlyWhenCriticalAndBelowMinimum | src/lib/adaptive-coach/index.ts:218-220 | a protocol is dropped iff the level is critical and the reading is below its minimum |
| ProtocolRanking.ScoreAll | src/lib/adaptive-coach/index.ts:223-226 | one entry per surviving protocol, in order, each paired with its compatibility score |
| ProtocolRanking.ScoreCandidates | src/lib/adaptive-coach/index.ts:223-226 | fills a fresh array with exactly the scored candidates |
| ProtocolRanking.InsertDescPermutes | src/lib/adaptive-coach/index.ts:228 | inserting one candidate with `InsertDesc` (the reference insertion) adds exactly that candidate to the multiset |
| ProtocolRanking.InsertDescBounded | src/lib/adaptive-coach/index.ts:228 | insertion keeps every score under a common bound |
| ProtocolRanking.InsertDescSorted | src/lib/adaptive-coach/index.ts:228 | insertion into a descending sequence keeps it descending |
| ProtocolRanking.InsertDescWithScore | src/lib/adaptive-coach/index.ts:228 | insertion places the new candidate after every equal score already present (stability) |
| ProtocolRanking.NoneScoring | src/lib/adaptive-coach/index.ts:228 | a descending sequence whose head scores below v has no entry scoring v |
| ProtocolRanking.WithScoreAppend | src/lib/adaptive-coach/index.ts:228 | the entries with a given score distribute over appending one entry |
| ProtocolRanking.SortByScoreCorrect | src/lib/adaptive-coach/index.ts:228 | the reference sort `SortByScore` (insertion by `InsertDesc`) is descending, a permutation of its input, and stable: the entries of any one score keep their input order |
| ProtocolRanking.SortByScoreSorted | src/lib/adaptive-coach/index.ts:228 | the reference sort is descending |
| ProtocolRanking.SortByScoreStep | src/lib/adaptive-coach/index.ts:228 | sorting one more element is inserting it into the sorted prefix |
| ProtocolRanking.InsertDescAt | src/lib/adaptive-coach/index.ts:228 | insertion lands right after the last entry scoring at least as much |
| ProtocolRanking.ShiftLower | src/lib/adaptive-coach/index.ts:228 | moves the lower-scoring tail of the sorted prefix up one slot and reports where the new entry belongs |
| ProtocolRanking.ShiftedIsInsert | src/lib/adaptive-coach/index.ts:228 | the shifted array with the key placed is the reference insertion |
| ProtocolRanking.InsertInto | src/lib/adaptive-coach/index.ts:228 | in place, the first i + 1 slots become the reference insertion of slot i into the sorted prefix, and the rest is untouched |
| ProtocolRanking.SortInPlace | src/lib/adaptive-coach/index.ts:228 | the array ends as the reference stable descending sort of its old contents |
| ProtocolRanking.RiskFactors | src/lib/adaptive-coach/index.ts:235-248 | no contract of its own; `RiskFactorsListed` states each text, its condition and the order |
| ProtocolRanking.RiskFactorsListed | src/lib/adaptive-coach/index.ts:232-248 | each risk text is present iff its condition holds (below minimum, fatigue over 70, recovery under 50), no other text appears, and they come in check order |
| ProtocolRanking.Benefits | src/lib/adaptive-coach/index.ts:243-251 | no contract of its own; `BenefitsListed` states each text, its condition and the order |
| ProtocolRanking.BenefitsListed | src/lib/adaptive-coach/index.ts:233-251 | the stress benefit is present iff stress is over 70 and the recovery window iff recovery is over 80, with stress first |
| ProtocolRanking.LimitedAndExcellentExclusive | src/lib/adaptive-coach/index.ts:247-251 | no pick is warned of limited recovery while promised an excellent recovery window |
| ProtocolRanking.Alternatives | src/lib/adaptive-coach/index.ts:259-262 | no contract of its own; `AlternativesFromRanking` bounds it and `AlternativesAreFirstOthers` pins it to the filter-then-slice |
| ProtocolRanking.AlternativesFromRanking | src/lib/adaptive-coach/index.ts:259-262 | at most two alternatives, each a ranked candidate with another id |
| ProtocolRanking.Take1FromRanking | src/lib/adaptive-coach/index.ts:259-262 | the second alternative slot holds at most one ranked candidate with another id |
| ProtocolRanking.OtherCandidates | src/lib/adaptive-coach/index.ts:260 | dropping the pick's id never lengthens the ranking, and shortens it when the id occurs |
| ProtocolRanking.AlternativesAreFirstOthers | src/lib/adaptive-coach/index.ts:259-262 | the alternatives are exactly the protocols of the first two other candidates of the whole ranking |
| ProtocolRanking.Take1IsFirstOther | src/lib/adaptive-coach/index.ts:259-262 | the one-slot take is the first other candidate, if any |
| ProtocolRanking.SliceEnd | src/lib/adaptive-coach/index.ts:231 | the slice end never passes the length, and is min(limit, length) for a non-negative limit |
| ProtocolRanking.Reasoning | src/lib/adaptive-coach/index.ts:256 | no contract of its own; the reasoning text is data, assembled from the rounded score, the level, the recovery and the fatigue |
| ProtocolRanking.Explain | src/lib/adaptive-coach/index.ts:231-263 | no contract of its own; it is the reference record that the push-by-push method `Explanation` is proved to build, and `RiskFactorsListed`, `BenefitsListed` and `AlternativesAreFirstOthers` state its parts |
| ProtocolRanking.Explanation | src/lib/adaptive-coach/index.ts:231-263 | the recommendation pairs the pick with its score, reasoning, risk factors, benefits and alternatives |
| ProtocolRanking.ExplainTop | src/lib/adaptive-coach/index.ts:231-264 | the loop explains exactly the first count ranked candidates, in order |
| ProtocolRanking.RecommendProtocols | src/lib/adaptive-coach/index.ts:212-267 | filter, score into an array, sort in place and explain: the result equals the reference recommendations `Recommendations`, the explained prefix of the reference ranking `Ranked` |
| ProtocolRanking.RankedEntries | src/lib/adaptive-coach/index.ts:218-228 | the reference ranking `Ranked` has one entry per safe protocol, is descending, and each entry is a safe protocol with its own score |
| ProtocolRanking.RankedIsStable | src/lib/adaptive-coach/index.ts:223-228 | within any one score the ranking keeps catalogue order |
| ProtocolRanking.RecommendationsRanked | src/lib/adaptive-coach/index.ts:212-267 | the count of `Recommendations` is the slice of the safe list; each recommendation is the matching ranked protocol, safe and from the catalogue, with its compatibility score as confidence; confidences never increase |
| ProtocolRanking.PickAt | src/lib/adaptive-coach/index.ts:231-255 | the i-th recommendation carries the i-th ranked protocol and its score |
| ProtocolRanking.EmptyCatalogue | src/lib/adaptive-coach/index.ts:212-267 | an empty catalogue gives no recommendations |
| ProtocolRanking.AlternativesOfPicks | src/lib/adaptive-coach/index.ts:259-262 | each pick has at most two alternatives, fewer than the safe protocols, all safe and none sharing the pick's id |
| Utils.FormatDuration | src/lib/utils.ts:21-32 | the text ends in "h" exactly for a positive whole number of hours and in "m" otherwise; `FormatDurationCases` gives the three shapes |
| Utils.FormatDurationCases | src/lib/utils.ts:21-32 | under an hour gives "Nm"; whole hours give "Hh"; otherwise "Hh Mm" with 1 ≤ M ≤ 59 and H·60 + M the input |
| Utils.InterpretHRV | src/lib/utils.ts:38-48 | high iff the reading is at least 110 % of baseline and low iff below 90 %; normal otherwise |
| Utils.InterpretHRVBands | src/lib/utils.ts:38-48 | high iff the reading is at least 110 % of baseline, normal iff 90–110 %, low iff below 90 %; the range argument is ignored |
| Utils.CalculateReadiness | src/lib/utils.ts:53-73 | the score is round(min(hrv/50·40, 40) + min(sleep/8·40, 40) + min(70/rhr·20, 20)), at most 100 and non-negative for non-negative inputs; each status holds exactly on its score band |
| Utils.ReadinessMonotone | src/lib/utils.ts:60-64 | more HRV or more sleep never lowers the score |
| Utils.ReadinessFullMarks | src/lib/utils.ts:60-70 | HRV from 50, sleep from 8 h and a resting rate up to 70 give 100, optimal |
| Utils.ReadinessExample | src/lib/utils.ts:60-70 | HRV 25, sleep 4 h and resting rate 70 give 60, good |
| Utils.ReadinessSumBounds | src/lib/utils.ts:60-64 | the rounded factor sum is at most 100 and, for non-negative inputs, at least 0 |
| Utils.CalculateStrain | src/lib/utils.ts:78-86 | the strain is the rounded formula when that is at most 100, and 100 when it rounds to 100 or more |
| Utils.StrainMonotoneInIntensity | src/lib/utils.ts:78-86 | with a positive HRV and a non-negative duration, a higher intensity never lowers the strain |
| Utils.StrainHasNoLowerClamp | src/lib/utils.ts:78-86 | a negative intensity gives a negative strain (−100 for −10, 60 min, 100) |
| Utils.GetStatusColor | src/lib/utils.ts:91-109 | success iff the value lies inside the range, for any range; `StatusColorByGap` gives the critical/caution split |
| Utils.StatusColorByGap | src/lib/utils.ts:91-109 | success iff inside the range; outside it, critical iff the gap exceeds 20 % of the range width |
| Utils.MaskCoordinate | src/lib/utils.ts:147-158 | the masked value is a whole number of hundredths within 0.005 of the input |
| Utils.MaskCoordinates | src/lib/utils.ts:147-158 | both coordinates are whole hundredths within 0.005 of the input |
| Utils.MaskCoordinatesIdempotent | src/lib/utils.ts:147-158 | masking twice is masking once, whatever the precision argument |
| HealthUtils.ParseSleepTime | src/utils/healthUtils.ts:9-19 | a number is returned as is, and a text that does not match the pattern gives 7.5 |
| HealthUtils.ParseSleepTimeOfParts | src/utils/healthUtils.ts:9-19 | "HhM" with digits matches and gives H + M/60, with a missing M read as 0 |
| HealthUtils.SleepMinutes | src/utils/healthUtils.ts:24-28 | the rounded minute part is between 0 and 60 |
| HealthUtils.FormatSleepTime | src/utils/healthUtils.ts:24-28 | the text ends in "h" and two minute characters; `FormatSleepTimeShape` gives the parts and `FormatThenParse` the inverse |
| HealthUtils.FormatSleepTimeShape | src/utils/healthUtils.ts:24-28 | the text is the whole hours, "h", and the rounded minutes padded to two digits |
| HealthUtils.FormatSleepTimeAgreesWithDecimalToTime | src/utils/healthUtils.ts:24-28 | when the minutes do not round up to 60, formatting agrees with the test helper's conversion |
| HealthUtils.FormatSleepTimeSixtyMinutes | src/utils/healthUtils.ts:24-28 | 7.999 h formats as "7h60", where the test helper gives "8h00" |
| HealthUtils.FormatThenParse | src/utils/healthUtils.ts:9-28 | formatting H + M/60 and parsing the text back gives H + M/60 |
| HealthUtils.FormatWholeMinutes | src/utils/healthUtils.ts:24-28 | a time that is a whole number of minutes below the hour formats as its hours, "h" and the two-digit minutes |
| HealthUtils.SleepDisplay | src/utils/healthUtils.ts:50 | sleep given as text is displayed verbatim; a number is displayed through `FormatSleepTime` |
| HealthUtils.BandOf | src/utils/healthUtils.ts:56-65 | well recovered iff recovery ≥ 75, moderation iff 50–75, tired iff below 50 |
| HealthUtils.StrainComment | src/utils/healthUtils.ts:67-73 | no comment iff strain ≤ 10; otherwise three parts with the strain in the middle and the closing phrase last, opening with the intense-effort phrase iff strain > 15 and with the moved-well phrase iff 10 < strain ≤ 15 |
| HealthUtils.SleepComment | src/utils/healthUtils.ts:75-82 | no comment iff 6.5 ≤ sleep < 7.5; short sleep gives the warning with the sleep text and the bedtime advice; good sleep reports the parsed number of hours, not the display text |
| HealthUtils.GetStaticSummary | src/utils/healthUtils.ts:45-84 | the summary is built from `GeneralState`, the separator, `Recommendation` and the comments; it opens with the well-recovered, decent-shape or tired phrase, closes that sentence with the matching phrase, and opens the advice with go-for-it, favour-light or favour-rest, each exactly on the recovery band ≥ 75, 50–75 or < 50; `SummaryMentions` and `SummaryEndsWithComments` give the figures and the tail |
| HealthUtils.GeneralState | src/utils/healthUtils.ts:56-65 | three parts: the band's opening phrase, the recovery figure and the band's closing phrase, each phrase exactly for its band |
| HealthUtils.Recommendation | src/utils/healthUtils.ts:56-65 | opens with the band's advice phrase, exactly for its band; shows the HRV unless tired and the resting rate only when well recovered |
| HealthUtils.SummaryMentions | src/utils/healthUtils.ts:45-84 | the summary reports the recovery first, mentions the HRV from 50 on and the resting rate from 75 on |
| HealthUtils.SummaryEndsWithComments | src/utils/healthUtils.ts:68-84 | the summary ends with the strain comment and then the sleep comment |
| HealthUtils.UnreadableSleepIsPraised | src/utils/healthUtils.ts:13-81 | an unreadable sleep text counts as 7.5 hours and earns the good-sleep comment with 7.5 |
| HealthUtils.RecoveryPhrase | src/utils/healthUtils.ts:98-104 | each of the three phrases holds exactly on its recovery band |
| HealthUtils.StrainPhrase | src/utils/healthUtils.ts:106-112 | light iff strain ≤ 10, moderate iff 10–15, high load iff above 15 |
| HealthUtils.GetStaticDetailedSummary | src/utils/healthUtils.ts:92-138 | the glossary is the four fixed entries; the analysis has 19 parts, holds the recovery phrase of its band (75 / 50) at slot 11 and the strain phrase of its band (15 / 10) at slot 15, no other recovery or strain phrase anywhere, and the recovery, HRV, resting-rate, sleep, SpO2, strain and calorie figures at their slots |
| HealthUtils.Opening | src/utils/healthUtils.ts:98 | the overall-state sentence has 11 parts and no band phrase |
| HealthUtils.Trend | src/utils/healthUtils.ts:106 | the weekly-trend sentence has 3 parts and no band phrase |
| HealthUtils.Expenditures | src/utils/healthUtils.ts:112 | the expenditure sentence has 3 parts and no band phrase |
| HealthUtils.AnalysisBandPhrases | src/utils/healthUtils.ts:98-112 | the recovery phrase sits at slot 11 and the strain phrase at slot 15 of `Analysis`, and neither kind of phrase appears anywhere else |
| HealthUtils.AnalysisFigures | src/utils/healthUtils.ts:98-112 | each figure of the data sits at its own slot of `Analysis` |
| HealthUtils.DetailedAgreesWithSummary | src/utils/healthUtils.ts:56-112 | the short and the detailed summary name the same recovery band and the same strain level |
| HealthUtils.TextSleepGetsSecondUnit | src/utils/healthUtils.ts:98 | sleep given as text is shown followed by another "h" |
| TimeConversion.TimeToDecimal | src/__tests__/utils/timeConversion.test.ts:4-10 | the result is never negative, and a text that does not match "digits h digits" gives 0; `TimeToDecimalOfParts` gives the matching case |
| TimeConversion.TimeToDecimalOfParts | src/__tests__/utils/timeConversion.test.ts:4-10 | "HhM" with digits on both sides matches and gives H + M/60 |
| TimeConversion.TimeToDecimalExamples | src/__tests__/utils/timeConversion.test.ts:22-28 | "7h30" gives 7.5 and "8h00" gives 8 |
| TimeConversion.TimeToDecimalMoreExamples | src/__tests__/utils/timeConversion.test.ts:30-36 | "6h45" gives 6.75 and "5h12" gives 5.2 |
| TimeConversion.TimeToDecimalRejects | src/__tests__/utils/timeConversion.test.ts:38-41 | "invalid" and "7:30" give 0 |
| TimeConversion.RoundShift | src/__tests__/utils/timeConversion.test.ts:15 | rounding commutes with adding a whole number |
| TimeConversion.DivMod60 | src/__tests__/utils/timeConversion.test.ts:16-17 | hours and minutes are recovered from h·60 + m |
| TimeConversion.MinutesToTextParts | src/__tests__/utils/timeConversion.test.ts:17 | `MinutesToText` renders a minute total as its hours, "h" and the padded remainder |
| TimeConversion.HoursAndMinutes | src/__tests__/utils/timeConversion.test.ts:14-15 | the rounded minute part is within 0–60 and whole hours plus it is the nearest whole minute |
| TimeConversion.DecimalToTime | src/__tests__/utils/timeConversion.test.ts:13-18 | no contract of its own; `DecimalToTimeIsNearestMinute` gives its value, `DecimalToTimeShape` its form and `RoundTrip` its inverse |
| TimeConversion.DecimalToTimeIsNearestMinute | src/__tests__/utils/timeConversion.test.ts:13-18 | the result is the nearest whole minute written as hours and padded minutes, a carried 60 included |
| TimeConversion.CarriedHour | src/__tests__/utils/timeConversion.test.ts:16 | a whole number of hours renders with "h00" |
| TimeConversion.DecimalToTimeShape | src/__tests__/utils/timeConversion.test.ts:13-18 | every result is hours, "h" and two digits of minutes below 60 |
| TimeConversion.RoundTrip | src/__tests__/utils/timeConversion.test.ts:66-81 | every "HhMM" with MM below 60 survives text → decimal → text |
| TimeConversion.ReadPadded | src/__tests__/utils/timeConversion.test.ts:4-10 | hours, "h" and two-digit minutes below 60 read as hours plus minutes / 60 |
| TimeConversion.WholeMinutes | src/__tests__/utils/timeConversion.test.ts:13-18 | hours plus minutes / 60, in minutes and rounded, is exactly the whole number of minutes |
| TimeConversion.WriteWholeMinutes | src/__tests__/utils/timeConversion.test.ts:13-18 | a time that is a whole number of minutes renders as its hours and padded minutes |
| TimeConversion.MinutesToTextDigits | src/__tests__/utils/timeConversion.test.ts:17 | `MinutesToText` renders single-digit hours as four characters H, h, tens, units |
| TimeConversion.DecimalToTimeNear | src/__tests__/utils/timeConversion.test.ts:13-18 | any input within half a minute of H:TU renders as "HhTU" |
| TimeConversion.DecimalToTimeHalfHour | src/__tests__/utils/timeConversion.test.ts:45-47 | 7.5 gives "7h30" |
| TimeConversion.DecimalToTimeWholeHour | src/__tests__/utils/timeConversion.test.ts:49-51 | 8.0 gives "8h00" |
| TimeConversion.DecimalToTimeJustPastHalf | src/__tests__/utils/timeConversion.test.ts:53-55 | 7.501 gives "7h30" |
| TimeConversion.DecimalToTimeCarries | src/__tests__/utils/timeConversion.test.ts:57-59 | 7.999 carries into the next hour: "8h00" |
| TimeConversion.DecimalToTimePadding | src/__tests__/utils/timeConversion.test.ts:61-63 | 7.083 pads the minutes: "7h05" |
| HealthKit.TransformAppleHealthSleep | src/lib/services/healthkit-types.ts:254-279 | the id is the uuid or the fresh id; the date and start are the start time, the end the end time; in-bed and total time are the span in minutes; asleep is 90 % of it, deep 15 %, REM 20 %, light 55 % and awake 10 %, so the stages partition it; efficiency 90, latency 15, 10 min awake after onset, no cycles, score 85, deep stage, source apple_health |
| HealthKit.DetermineIntensity | src/lib/services/healthkit-types.ts:284-293 | moderate when calories or duration is missing or zero; otherwise vigorous iff more than 15 kcal/min, moderate iff 10–15, light otherwise; never max |
| HealthKit.CreateHealthSnapshot | src/lib/services/healthkit-types.ts:298-314 | the snapshot holds exactly the given parts and no vitals, biometrics, stress or cycle data |
| HealthKit.HealthScore | src/lib/services/healthkit-types.ts:319-350 | the score is the rounded sum of 50 and the contributions when that is at most 100, and 100 when it rounds to 100 or more |
| HealthKit.CalculateHealthScore | src/lib/services/healthkit-types.ts:319-350 | the step-by-step accumulation equals the specified health score |
| HealthKit.EmptySnapshotScoresFifty | src/lib/services/healthkit-types.ts:319-350 | a snapshot without data scores 50 |
| HealthKit.HealthScoreInRange | src/lib/services/healthkit-types.ts:319-350 | with percentage inputs in range and non-negative calories the score lies in [50, 100] |
| HealthKit.HealthScoreHasNoLowerClamp | src/lib/services/healthkit-types.ts:349 | negative contributions can push the score below 0 |
| HealthKit.FirstWorkoutAddsTwenty | src/lib/services/healthkit-types.ts:334-336 | the first workout adds exactly 20 |
| ProtocolData.FirstIndexOf | src/data/protocols.ts:21-23 | the index of the first protocol with the id, or the length |
| ProtocolData.FindById | src/data/protocols.ts:21-23 | none iff no protocol has the id; otherwise the first protocol with that id |
| ProtocolData.GetProtocolById | src/data/protocols.ts:18-23 | the built-in catalogue is empty, so every lookup finds nothing |
| ProtocolData.AddProtocol | src/data/protocols.ts:26-29 | a fresh list: the catalogue followed by the new protocol |
| ProtocolStore.AlnumAppend | src/store/useProtocolStore.ts:47-52 | the letters and digits of a concatenation are those of its parts |
| ProtocolStore.DropSeparators | src/store/useProtocolStore.ts:51 | dropping the rest of a separator run never lengthens the text, leaves it empty or starting with a slug character, and keeps every letter and digit |
| ProtocolStore.CollapseRuns | src/store/useProtocolStore.ts:51 | the result has only [a-z0-9] and single dashes, keeps every letter and digit, starts with a dash exactly when the text starts with a separator, and is empty only for the empty text; `CollapseRunsJoinsWords` pins where the dashes go |
| ProtocolStore.DashedCons | src/store/useProtocolStore.ts:51 | prefixing a slug character, or a dash before a non-dash, keeps a text single-dashed |
| ProtocolStore.DropLeadingDashes | src/store/useProtocolStore.ts:52 | removes exactly the leading dashes |
| ProtocolStore.DropTrailingDashes | src/store/useProtocolStore.ts:52 | removes exactly the trailing dashes |
| ProtocolStore.DashedSlice | src/store/useProtocolStore.ts:51-52 | a slice of a single-dashed text is single-dashed |
| ProtocolStore.TrimDashesKeepsDashed | src/store/useProtocolStore.ts:52 | trimming keeps a text single-dashed |
| ProtocolStore.DropLeadingKeepsAlnum | src/store/useProtocolStore.ts:52 | trimming leading dashes keeps every letter and digit |
| ProtocolStore.DropTrailingKeepsAlnum | src/store/useProtocolStore.ts:52 | trimming trailing dashes keeps every letter and digit |
| ProtocolStore.TrimDashesKeepsAlnum | src/store/useProtocolStore.ts:52 | trimming both ends keeps every letter and digit |
| ProtocolStore.Slug | src/store/useProtocolStore.ts:47-52 | the slug is the words of the lowercased name (its maximal [a-z0-9] runs) joined by single dashes; so it has no dash at either end and keeps every letter and digit |
| ProtocolStore.TakeWord | src/store/useProtocolStore.ts:51 | the longest prefix made of [a-z0-9] characters |
| ProtocolStore.Words | src/store/useProtocolStore.ts:51 | the maximal runs of [a-z0-9], in order, none empty |
| ProtocolStore.WordsAfterSeparators | src/store/useProtocolStore.ts:51 | leading separators do not change the words |
| ProtocolStore.CollapseAfterWord | src/store/useProtocolStore.ts:51 | a word passes through the collapse unchanged |
| ProtocolStore.DropTrailingAfter | src/store/useProtocolStore.ts:52 | trailing dashes are trimmed the same whatever text precedes them |
| ProtocolStore.FirstWordStep | src/store/useProtocolStore.ts:51 | a text that starts with a word collapses to the word, then one dash and the collapse of the rest after its separators |
| ProtocolStore.FirstWordCollapse | src/store/useProtocolStore.ts:51 | a separator run after a word becomes exactly one dash |
| ProtocolStore.TrimWord | src/store/useProtocolStore.ts:52 | a word with or without one trailing dash trims to the word |
| ProtocolStore.LastWord | src/store/useProtocolStore.ts:51-52 | a single word followed only by separators collapses and trims to that word |
| ProtocolStore.CollapseRunsJoinsWords | src/store/useProtocolStore.ts:51-52 | from the first word on, the collapse with its trailing dash trimmed is the words joined by single dashes |
| ProtocolStore.JoinStep | src/store/useProtocolStore.ts:51-52 | a word, separators and more words give the word, one dash and the rest joined |
| ProtocolStore.JoinDashCons | src/store/useProtocolStore.ts:51 | joining a word in front adds exactly one dash |
| ProtocolStore.JoinDashStartsWithFirst | src/store/useProtocolStore.ts:51 | a join starts with its first word |
| ProtocolStore.SlugJoinsWords | src/store/useProtocolStore.ts:51-52 | collapsing and trimming any text gives its words joined by single dashes |
| ProtocolStore.LeadingSeparatorsCollapse | src/store/useProtocolStore.ts:51-52 | leading separators add only a leading dash, which the trim removes |
| ProtocolStore.NoLeadingDash | src/store/useProtocolStore.ts:52 | a text that starts with a word collapses to something without a leading dash |
| ProtocolStore.TakeWordOf | src/store/useProtocolStore.ts:51 | the first word of a word followed by a separator is that word |
| ProtocolStore.DropSeparatorsOf | src/store/useProtocolStore.ts:51 | a separator run in front of a word is dropped entirely |
| ProtocolStore.WordsOfWord | src/store/useProtocolStore.ts:51 | a single word has itself as its only word |
| ProtocolStore.SlugOfWord | src/store/useProtocolStore.ts:47-52 | a name that is one lowercase word of letters and digits is its own slug |
| ProtocolStore.SlugOfTwoWords | src/store/useProtocolStore.ts:47-52 | two words separated by any non-empty run of other characters give the two words joined by one dash ("deep breath" gives "deep-breath") |
| ProtocolStore.OrText | src/store/useProtocolStore.ts:62-64 | the value when present and non-empty, the fallback otherwise |
| ProtocolStore.NewCustomProtocol | src/store/useProtocolStore.ts:54-70 | the new protocol's id is slug plus time, and each field takes its given value or its default (breathing, "15 min", 900 s, the name, 0 of 10, no references) |
| ProtocolStore.CustomIdsDifferInTime | src/store/useProtocolStore.ts:54-55 | the same name at two different times gives two different ids |
| ProtocolStore.WithProtocol | src/store/useProtocolStore.ts:30-41 | a present id leaves the list alone; otherwise the protocol is appended with progress reset to 0 |
| ProtocolStore.WithCustom | src/store/useProtocolStore.ts:72-80 | a colliding id leaves the list alone; otherwise the custom protocol is appended |
| ProtocolStore.WithoutId | src/store/useProtocolStore.ts:85-89 | keeps exactly the protocols with another id |
| ProtocolStore.WithoutIdAppend | src/store/useProtocolStore.ts:85-89 | removal distributes over concatenation, so order is kept |
| ProtocolStore.WithoutAbsentId | src/store/useProtocolStore.ts:85-89 | removing an absent id changes nothing |
| ProtocolStore.WithProgress | src/store/useProtocolStore.ts:91-97 | same length; only the completed count of the matching protocols changes |
| ProtocolStore.WithProtocolKeepsDistinct | src/store/useProtocolStore.ts:30-41 | adding keeps ids distinct and makes the id present |
| ProtocolStore.WithCustomKeepsDistinct | src/store/useProtocolStore.ts:72-80 | adding a custom protocol keeps ids distinct and makes its id present |
| ProtocolStore.WithoutIdKeepsDistinct | src/store/useProtocolStore.ts:85-89 | removing keeps ids distinct |
| ProtocolStore.WithProgressKeepsDistinct | src/store/useProtocolStore.ts:91-97 | updating progress keeps ids distinct |
| ProtocolStore.ProtocolLibrary.constructor | src/store/useProtocolStore.ts:25-28 | the library starts empty |
| ProtocolStore.ProtocolLibrary.AddProtocol | src/store/useProtocolStore.ts:30-41 | the list becomes the specified addition, stays duplicate-free and has the id |
| ProtocolStore.ProtocolLibrary.AddCustomProtocol | src/store/useProtocolStore.ts:43-83 | returns the specified new protocol and stores it unless its id collides; the list stays duplicate-free |
| ProtocolStore.ProtocolLibrary.RemoveProtocol | src/store/useProtocolStore.ts:85-89 | the list loses exactly that id and stays duplicate-free |
| ProtocolStore.ProtocolLibrary.UpdateProgress | src/store/useProtocolStore.ts:91-97 | only the matching completed counts change |
| ProtocolStore.ProtocolLibrary.HasProtocol | src/store/useProtocolStore.ts:99-101 | true iff some stored protocol has the id |
| LocationBeacon.Without | src/components/features/social/LocationBeacon.tsx:130 | keeps exactly the other ids, and changes nothing when the id is absent |
| LocationBeacon.WithoutKeepsNoDuplicates | src/components/features/social/LocationBeacon.tsx:130 | removal keeps the selection duplicate-free |
| LocationBeacon.ToggledContacts | src/components/features/social/LocationBeacon.tsx:128-134 | the contact ends selected iff it was not and fewer than five were chosen; other contacts are untouched; a full selection ignores new contacts |
| LocationBeacon.ToggleKeepsSelectionValid | src/components/features/social/LocationBeacon.tsx:128-134 | toggling keeps at most five contacts, without duplicates |
| LocationBeacon.ToggleTwiceRestores | src/components/features/social/LocationBeacon.tsx:128-134 | selecting and then deselecting a contact restores the selection |
| LocationBeacon.WithoutAppend | src/components/features/social/LocationBeacon.tsx:130-132 | removing the contact just appended gives back the list |
| LocationBeacon.Split | src/components/features/social/LocationBeacon.tsx:103-106 | hours, minutes below 60 and seconds below 60 add back up to the total |
| LocationBeacon.FormatTime | src/components/features/social/LocationBeacon.tsx:103-109 | no contract of its own; it renders the parts of `Split`, and `FormatFullPeriod` gives the four-hour case |
| LocationBeacon.FormatFullPeriod | src/components/features/social/LocationBeacon.tsx:103-109 | the full four hours render as "4h 0m 0s" |
| LocationBeacon.Beacon.constructor | src/components/features/social/LocationBeacon.tsx:77-81 | inactive, nothing selected, four hours left, no prompt, no start time |
| LocationBeacon.Beacon.BeaconToggle | src/components/features/social/LocationBeacon.tsx:111-120 | when inactive only the permission prompt opens; when active everything resets |
| LocationBeacon.Beacon.PermissionGranted | src/components/features/social/LocationBeacon.tsx:122-126 | active from the given time and the prompt closed; the selection and the clock kept |
| LocationBeacon.Beacon.SetPermissionPromptOpen | src/components/features/social/LocationBeacon.tsx:410-413 | only the prompt flag changes, and the beacon stays valid |
| LocationBeacon.Beacon.ContactToggle | src/components/features/social/LocationBeacon.tsx:128-134 | the selection becomes the specified toggle and nothing else changes |
| LocationBeacon.Beacon.Tick | src/components/features/social/LocationBeacon.tsx:86-101 | inactive: nothing; above one second: one second less; otherwise deactivate, clear the selection and rearm four hours |
| ProtocolTimer.JsRem | src/components/features/coach/ProtocolTimer.tsx:38 | the remainder takes the sign of the dividend and is the usual remainder for non-negative values |
| ProtocolTimer.Display | src/components/features/coach/ProtocolTimer.tsx:37-38 | no contract of its own; `DisplayOfNat` and `DisplayReadsBack` state the "MM:SS" rendering and its read-back |
| ProtocolTimer.DisplayOfNat | src/components/features/coach/ProtocolTimer.tsx:37-38 | for a non-negative count the display is padded minutes, ":" and padded seconds |
| ProtocolTimer.DisplayReadsBack | src/components/features/coach/ProtocolTimer.tsx:37-38 | below 100 minutes the display is "MM:SS" and reads back as the seconds left |
| ProtocolTimer.DisplayTenMinutes | src/components/features/coach/ProtocolTimer.tsx:37-38 | 600 s shows "10:00" |
| ProtocolTimer.DisplayPadsBoth | src/components/features/coach/ProtocolTimer.tsx:37-38 | 125 s shows "02:05" |
| ProtocolTimer.Progress | src/components/features/coach/ProtocolTimer.tsx:36 | in [0, 100] while time is within the duration; 0 at the start and 100 at the end |
| ProtocolTimer.Timer.constructor | src/components/features/coach/ProtocolTimer.tsx:13-14 | the full duration is left |
| ProtocolTimer.Timer.Effect | src/components/features/coach/ProtocolTimer.tsx:19-25 | an interval starts iff active with time left; the toggle fires iff time is up |
| ProtocolTimer.Timer.Tick | src/components/features/coach/ProtocolTimer.tsx:19-22 | one second less while active with time left, otherwise unchanged |
| ProtocolTimer.Timer.Reset | src/components/features/coach/ProtocolTimer.tsx:32-34 | the full duration is left again |
| ProtocolTimer.Timer.SetActive | src/components/features/coach/ProtocolTimer.tsx:13 | only the active flag changes |
| PrivacySettings.WithoutZone | src/components/features/social/PrivacySettings.tsx:61-63 | keeps exactly the zones with another id |
| PrivacySettings.WithoutZoneAppend | src/components/features/social/PrivacySettings.tsx:61-63 | deletion distributes over concatenation, so order is kept |
| PrivacySettings.Overwrite | src/components/features/social/PrivacySettings.tsx:69 | an edit keeps the zone's id and creation time and takes the new name, radius and coordinates |
| PrivacySettings.EditedZones | src/components/features/social/PrivacySettings.tsx:66-70 | same length and ids; only the zones with the edited id change |
| PrivacySettings.NewZone | src/components/features/social/PrivacySettings.tsx:73-77 | a new zone gets the time-based id, the creation time and the entered data |
| PrivacySettings.SavedZones | src/components/features/social/PrivacySettings.tsx:65-80 | saving edits the zone being edited, or else appends a new zone |
| PrivacySettings.EditOfDeletedZone | src/components/features/social/PrivacySettings.tsx:61-70 | editing a zone that is no longer listed changes nothing |
| PrivacySettings.DeleteThenAdd | src/components/features/social/PrivacySettings.tsx:61-80 | after deleting an id, only a new zone whose time-based id equals it can carry it |
| PrivacySettings.Settings.constructor | src/components/features/social/PrivacySettings.tsx:28-48 | starts with the sample zones and the editor closed |
| PrivacySettings.Settings.AddZone | src/components/features/social/PrivacySettings.tsx:51-54 | opens the editor with no zone selected |
| PrivacySettings.Settings.EditZone | src/components/features/social/PrivacySettings.tsx:56-59 | opens the editor on the zone |
| PrivacySettings.Settings.SetEditorOpen | src/components/features/social/PrivacySettings.tsx:229-234 | only the editor flag changes |
| PrivacySettings.Settings.DeleteZone | src/components/features/social/PrivacySettings.tsx:61-63 | the zones become the specified deletion |
| PrivacySettings.Settings.SaveZone | src/components/features/social/PrivacySettings.tsx:65-80 | the zones become the specified save |
| PrivacyZoneEditor.InitialName | src/components/features/social/PrivacyZoneEditor.tsx:31 | the zone's name, or empty for a new zone |
| PrivacyZoneEditor.InitialRadius | src/components/features/social/PrivacyZoneEditor.tsx:32 | the zone's radius unless missing or zero, else the 100 m default |
| PrivacyZoneEditor.ValidationError | src/components/features/social/PrivacyZoneEditor.tsx:36-44 | no error iff the name is not blank and the radius is 50–1000; a blank name is reported first |
| PrivacyZoneEditor.SavedData | src/components/features/social/PrivacyZoneEditor.tsx:46-50 | saves the name as typed, the radius, and the zone's coordinates or the origin |
| PrivacyZoneEditor.PaddedNameKeptAsTyped | src/components/features/social/PrivacyZoneEditor.tsx:36-50 | " Gym " passes validation and is saved with its spaces |
| PrivacyZoneEditor.Editor.constructor | src/components/features/social/PrivacyZoneEditor.tsx:31-33 | the fields start from the zone |
| PrivacyZoneEditor.Editor.SetZone | src/components/features/social/PrivacyZoneEditor.tsx:31-33 | a new zone prop leaves the typed fields alone |
| PrivacyZoneEditor.Editor.EditName | src/components/features/social/PrivacyZoneEditor.tsx:92-95 | the name takes the value and the error clears |
| PrivacyZoneEditor.Editor.EditRadius | src/components/features/social/PrivacyZoneEditor.tsx:118 | only the radius changes |
| PrivacyZoneEditor.Editor.Save | src/components/features/social/PrivacyZoneEditor.tsx:35-57 | an invalid form reports its error and keeps the fields; a valid one emits the data, asks to close and resets the fields |
| PrivacyZoneEditor.Editor.OpenChange | src/components/features/social/PrivacyZoneEditor.tsx:59-66 | closing resets the fields from the zone; the flag is forwarded either way |
| Challenges.Joined | src/components/features/social/ChallengesList.tsx:69-75 | only the matching challenges change: joined, with one more participant |
| Challenges.Left | src/components/features/social/ChallengesList.tsx:77-83 | only the matching challenges change: not joined, one participant fewer but never below 0 |
| Challenges.CountsStayNonNegative | src/components/features/social/ChallengesList.tsx:69-83 | joining and leaving keep participant counts non-negative |
| Challenges.JoinThenLeave | src/components/features/social/ChallengesList.tsx:69-83 | join then leave restores every count and marks the challenge as not joined |
| Challenges.JoinTwice | src/components/features/social/ChallengesList.tsx:69-75 | joining twice counts the user twice |
| Challenges.ChallengeBoard.constructor | src/components/features/social/ChallengesList.tsx:27-53 | starts with the sample challenges and no leaderboard open |
| Challenges.ChallengeBoard.JoinChallenge | src/components/features/social/ChallengesList.tsx:69-75 | the challenges become the specified join |
| Challenges.ChallengeBoard.LeaveChallenge | src/components/features/social/ChallengesList.tsx:77-83 | the challenges become the specified leave |
| Challenges.ChallengeBoard.ShowLeaderboard | src/components/features/social/ChallengesList.tsx:85-88 | selects the challenge and opens its leaderboard |
| Leaderboard.RawPercentBounds | src/components/features/social/Leaderboard.tsx:38 | `RawPercent`, the share (total − rank + 1)/total·100, rounds to 100 for the leader and into [0, 100] for every rank within the board |
| Leaderboard.Percentile | src/components/features/social/Leaderboard.tsx:38 | the percentile is (total − rank + 1)/total·100 rounded half up, so within half a unit of it; the leader is at 100 and every rank within the board in [0, 100] |
| Leaderboard.PercentileExamples | src/components/features/social/Leaderboard.tsx:38-43 | rank 3 of 10 is at 80, rank 2 of 3 at 67, and rank 10 of 10 at 10, the Foundational tier |
| Leaderboard.PercentileNonIncreasing | src/components/features/social/Leaderboard.tsx:38 | a worse rank never has a higher percentile |
| Leaderboard.GetPercentile | src/components/features/social/Leaderboard.tsx:37-44 | each tier holds exactly on its percentile band (90, 75, 50, 25) |
| Leaderboard.GetPercentileColor | src/components/features/social/Leaderboard.tsx:46-52 | the colours follow the tiers, with developing and foundational both critical |
| Leaderboard.LeaderIsElite | src/components/features/social/Leaderboard.tsx:37-52 | the leader is elite and shown in the success colour |
| Leaderboard.FilteredEntries | src/components/features/social/Leaderboard.tsx:32-35 | keeps exactly the matching entries |
| Leaderboard.FilteredEntriesAppend | src/components/features/social/Leaderboard.tsx:32-35 | filtering distributes over concatenation, so board order is kept |
| Leaderboard.EmptySearchKeepsAll | src/components/features/social/Leaderboard.tsx:32-35 | an empty query keeps every entry |
| Leaderboard.SearchIgnoresCase | src/components/features/social/Leaderboard.tsx:33 | "phoenix" finds "PhoenixX" |

## Left out

- Floating point: numbers are exact reals. NaN, infinities and binary rounding are not modelled, so `TimeConversion.TimeToDecimalMoreExamples` states 5.2 exactly where a double would give the nearest representable value.
- Division by zero: the source divides without a guard, and a zero divisor there yields NaN or an infinity in JavaScript. The model therefore requires a non-zero divisor. This covers the VFC baseline, the HRV baseline, the resting heart rate, the strain's heart-rate variability, the leaderboard total and the timer duration. A negative baseline is still computed as the source does.
- Number-to-text rendering of fractional numbers: messages embed numbers as `Figure`/`Num` parts and are not rendered to characters. Whole numbers the code itself formats (durations, "7h30", "4h 0m 0s", "MM:SS") are rendered digit by digit.
- `Text.Lower` only folds ASCII letters; other letters keep their case.
- `ProtocolStore.Slug` does not strip accents (Unicode NFD decomposition); names are taken as ASCII.
- Store persistence to local storage and the React rendering are not modelled. The interval timers of the beacon and the protocol timer are explicit `Tick` methods, not scheduling.
- Ids, the current time, dates and random UUIDs are parameters.
- `transformAppleHealthWorkout` is not modelled. The only workout fact the health score reads is whether the list is empty.
- The snapshot fields that no modelled operation reads (vitals, biometrics, stress, cycle data) are kept opaque.
- `ProtocolTimer.Timer` fixes its duration at construction; a changed duration prop is not modelled.
- A challenge's missing joined flag is `None`.
- The advice lines of `AdaptiveCoach.GetVFCRecommendations` are values of a datatype whose exact wording is `AdviceText`, so an assessment carries the lines, not the strings.
- `HealthUtils.FormatSleepTime` renders a minute part that rounds to 60 as "h60" without carrying into the hour, as the code does. `FormatSleepTimeSixtyMinutes` states this.
- `Utils.CalculateStrain` and `HealthKit.HealthScore` are clamped only from above, as in the code; the lemmas `StrainHasNoLowerClamp` and `HealthScoreHasNoLowerClamp` state this.
- `ProtocolRanking.Recommendations` and `ProtocolRanking.RecommendProtocols` always take the limit as an argument; the default of 3 is not modelled, and a caller that relies on it passes 3.
- `ProtocolStore.ProtocolLibrary.AddCustomProtocol` does not model the console warning printed when the new id already exists; logging is output. The store is left unchanged in that case, as in the code.
- `cn`, `debounce`, `formatPercentage` and `formatDate` are not modelled: they are class-name joining, scheduling and locale formatting.
