/**
 * The adaptive coach: classification of a heart-rate-variability (VFC) reading, its trend
 * over three sessions, the recovery percentage against a personal baseline, the canned
 * guidance per level, the protocol compatibility score and the training readiness score.
 */
module AdaptiveCoach {
  import opened Wrappers
  import opened Numbers

  // ===== VFC assessment thresholds (milliseconds) =====
  const EliteThreshold: real := 100.0
  const GoodThreshold: real := 70.0
  const AdequateThreshold: real := 50.0
  const CompromisedThreshold: real := 30.0

  datatype VFCLevel = Elite | Good | Adequate | Compromised | Critical
  datatype Trend = Improving | Stable | Declining

  datatype VFCAssessment = VFCAssessment(
    timestamp: real,            // milliseconds since the epoch, supplied by the caller
    vfcValue: real,
    level: VFCLevel,
    trend: Trend,
    recoveryPercentage: real,
    recommendations: seq<Advice>)

  datatype ProtocolCategory = Activation | Endurance | Strength | RecoveryCategory | SleepCategory | StressManagementCategory
  datatype ProtocolIntensity = Low | Moderate | High

  /** Catalogue-authored suitability scores, each nominally 0..100. */
  datatype Adaptivity = Adaptivity(
    lowVFC: real,
    mediumVFC: real,
    highVFC: real,
    afterTraining: real,
    beforeSleep: real,
    stressManagement: real)

  datatype AdaptiveProtocol = AdaptiveProtocol(
    id: string,
    name: string,
    category: ProtocolCategory,
    duration: real,               // minutes
    intensity: ProtocolIntensity,
    vfcMinimum: real,
    targetOutcome: string,
    estimatedRecoveryTime: real,  // hours
    warningMessage: Option<string>,
    adaptivity: Adaptivity)

  datatype RecoveryState = RecoveryState(
    vfc: VFCAssessment,
    rhr: real,
    bodyTemperature: real,
    sleepQuality: real,
    stressLevel: real,
    fatigueLevel: real,
    recoveryPercentage: real,
    lastWorkoutHoursAgo: real,
    readinessScore: real)

  // ===== Assessment =====

  /** Every reading falls in exactly one level; the bands are checked top-down. */
  function AssessVFCLevel(vfcValue: real): (level: VFCLevel)
    ensures level == Elite <==> vfcValue > 100.0
    ensures level == Good <==> 70.0 <= vfcValue <= 100.0
    ensures level == Adequate <==> 50.0 <= vfcValue < 70.0
    ensures level == Compromised <==> 30.0 <= vfcValue < 50.0
    ensures level == Critical <==> vfcValue < 30.0
  {
    if vfcValue > EliteThreshold then Elite
    else if vfcValue >= GoodThreshold then Good
    else if vfcValue >= AdequateThreshold then Adequate
    else if vfcValue >= CompromisedThreshold then Compromised
    else Critical
  }

  /** Position of a level on the recovery scale, Critical lowest. */
  function LevelRank(level: VFCLevel): nat {
    match level
    case Critical => 0
    case Compromised => 1
    case Adequate => 2
    case Good => 3
    case Elite => 4
  }

  /** A higher reading never gets a lower level. */
  lemma AssessVFCLevelMonotone(a: real, b: real)
    requires a <= b
    ensures LevelRank(AssessVFCLevel(a)) <= LevelRank(AssessVFCLevel(b))
  {
  }

  /**
   * Percentage of the baseline, clamped to [0, 100]. The source divides without a guard;
   * a zero baseline (Infinity or NaN in JavaScript) is outside the model.
   */
  function CalculateRecoveryPercentage(vfcValue: real, baseline: real): (pct: real)
    requires baseline != 0.0
    ensures 0.0 <= pct <= 100.0
    ensures 0.0 <= vfcValue / baseline * 100.0 <= 100.0 ==> pct == vfcValue / baseline * 100.0
    ensures vfcValue / baseline * 100.0 > 100.0 ==> pct == 100.0
    ensures vfcValue / baseline * 100.0 < 0.0 ==> pct == 0.0
  {
    ClampReal(vfcValue / baseline * 100.0, 0.0, 100.0)
  }

  /** With a positive baseline, a reading at or above it is full recovery, and more VFC never lowers the percentage. */
  lemma RecoveryPercentageMonotone(a: real, b: real, baseline: real)
    requires baseline > 0.0 && a <= b
    ensures CalculateRecoveryPercentage(a, baseline) <= CalculateRecoveryPercentage(b, baseline)
    ensures a >= baseline ==> CalculateRecoveryPercentage(a, baseline) == 100.0
  {
    assert a / baseline <= b / baseline;
    if a >= baseline {
      assert a / baseline >= 1.0;
    }
  }

  /** Two-step confirmation: both consecutive deltas must point the same way. */
  function AssessVFCTrend(currentVFC: real, previousVFC: real, twoSessionsAgoVFC: real): (trend: Trend)
    ensures trend == Improving <==> currentVFC - previousVFC > 5.0 && previousVFC - twoSessionsAgoVFC > 2.0
    ensures trend == Declining <==> currentVFC - previousVFC < -5.0 && previousVFC - twoSessionsAgoVFC < -2.0
    ensures trend == Stable <==>
      !(currentVFC - previousVFC > 5.0 && previousVFC - twoSessionsAgoVFC > 2.0) &&
      !(currentVFC - previousVFC < -5.0 && previousVFC - twoSessionsAgoVFC < -2.0)
  {
    var change1 := currentVFC - previousVFC;
    var change2 := previousVFC - twoSessionsAgoVFC;
    if change1 > 5.0 && change2 > 2.0 then Improving
    else if change1 < -5.0 && change2 < -2.0 then Declining
    else Stable
  }

  /** A single swing, however large, is not a trend when the earlier delta is small. */
  lemma SingleSwingIsStable(currentVFC: real, previousVFC: real, twoSessionsAgoVFC: real)
    requires -2.0 <= previousVFC - twoSessionsAgoVFC <= 2.0
    ensures AssessVFCTrend(currentVFC, previousVFC, twoSessionsAgoVFC) == Stable
  {
  }

  /** The rule is symmetric: negating all three readings swaps improving and declining. */
  lemma TrendMirror(currentVFC: real, previousVFC: real, twoSessionsAgoVFC: real)
    ensures AssessVFCTrend(currentVFC, previousVFC, twoSessionsAgoVFC) == Improving <==>
            AssessVFCTrend(-currentVFC, -previousVFC, -twoSessionsAgoVFC) == Declining
    ensures AssessVFCTrend(currentVFC, previousVFC, twoSessionsAgoVFC) == Stable <==>
            AssessVFCTrend(-currentVFC, -previousVFC, -twoSessionsAgoVFC) == Stable
  {
  }

  /** The lines of the fixed guidance table; AdviceText holds each one's exact wording. */
  datatype Advice =
    | ExcellentRecovery | ChallengingWorkouts | CompetitionWindow
    | GoodRecovery | MixHardAndEasy | StructuredTraining
    | ModerateRecovery | ModerateIntensity | RecoveryBetweenSessions
    | LimitedRecovery | ActiveRecovery | PrioritizeSleep | LighterProtocols
    | RestRecommended | AvoidTraining | SleepNutritionStress | GentleMobilityOnly

  function AdviceText(a: Advice): string {
    match a
    case ExcellentRecovery => "Excellent recovery - suitable for high intensity training"
    case ChallengingWorkouts => "Consider challenging workouts or speed sessions"
    case CompetitionWindow => "Good window for competitions"
    case GoodRecovery => "Good recovery - can handle moderate to high intensity"
    case MixHardAndEasy => "Mix of hard work and recovery activities"
    case StructuredTraining => "Optimal for structured training"
    case ModerateRecovery => "Moderate recovery - focus on quality over quantity"
    case ModerateIntensity => "Suitable for moderate intensity training"
    case RecoveryBetweenSessions => "Include recovery protocols between sessions"
    case LimitedRecovery => "Limited recovery - avoid high intensity work"
    case ActiveRecovery => "Focus on active recovery and mobility"
    case PrioritizeSleep => "Prioritize sleep and stress management"
    case LighterProtocols => "Consider lighter training protocols"
    case RestRecommended => "\U{26A0}\U{FE0F} Very low recovery - REST RECOMMENDED"
    case AvoidTraining => "Avoid training - focus on complete recovery"
    case SleepNutritionStress => "Implement sleep, nutrition, and stress management"
    case GentleMobilityOnly => "Only gentle mobility or breathing work"
  }

  /**
   * The fixed guidance table: three lines for the upper levels, four for the lower two,
   * and rest comes first at the critical level.
   */
  function GetVFCRecommendations(level: VFCLevel): (advice: seq<Advice>)
    ensures |advice| == if level == Compromised || level == Critical then 4 else 3
    ensures RestRecommended in advice <==> level == Critical
    ensures level == Critical ==> advice[0] == RestRecommended
  {
    match level
    case Elite => [ExcellentRecovery, ChallengingWorkouts, CompetitionWindow]
    case Good => [GoodRecovery, MixHardAndEasy, StructuredTraining]
    case Adequate => [ModerateRecovery, ModerateIntensity, RecoveryBetweenSessions]
    case Compromised => [LimitedRecovery, ActiveRecovery, PrioritizeSleep, LighterProtocols]
    case Critical => [RestRecommended, AvoidTraining, SleepNutritionStress, GentleMobilityOnly]
  }

  /** Assembles one assessment; `now` stands for `new Date()`. */
  function GenerateVFCAssessment(vfcValue: real, baseline: real, previousVFC: real, twoSessionsAgoVFC: real, now: real): (a: VFCAssessment)
    requires baseline != 0.0
    ensures a.timestamp == now && a.vfcValue == vfcValue
    ensures a.level == AssessVFCLevel(vfcValue)
    ensures a.trend == AssessVFCTrend(vfcValue, previousVFC, twoSessionsAgoVFC)
    ensures 0.0 <= a.recoveryPercentage <= 100.0
    ensures a.recoveryPercentage == CalculateRecoveryPercentage(vfcValue, baseline)
    ensures a.recommendations == GetVFCRecommendations(a.level)
  {
    var level := AssessVFCLevel(vfcValue);
    VFCAssessment(now, vfcValue, level, AssessVFCTrend(vfcValue, previousVFC, twoSessionsAgoVFC),
                  CalculateRecoveryPercentage(vfcValue, baseline), GetVFCRecommendations(level))
  }

  // ===== Protocol compatibility score =====
  // The score is 50 plus four independent contributions, clamped to [0, 100].

  /** Step 1: alignment of the protocol with the current VFC level. */
  function LevelAlignment(level: VFCLevel, a: Adaptivity): real {
    match level
    case Elite => a.highVFC * 0.3
    case Good => a.highVFC * 0.25
    case Adequate => a.mediumVFC * 0.25
    case Compromised => a.lowVFC * 0.3
    case Critical => -40.0
  }

  /** Step 2: bonus for low-VFC protocols when recovery is low, except at the critical level. */
  function LowRecoveryBonus(state: RecoveryState, a: Adaptivity): real {
    if state.recoveryPercentage < 50.0 && state.vfc.level != Critical then a.lowVFC * 0.2 else 0.0
  }

  /** Step 3: fatigue penalty. */
  function FatiguePenalty(state: RecoveryState): real {
    if state.fatigueLevel > 70.0 then 20.0 else 0.0
  }

  /** Step 4: stress-management bonus. */
  function StressBonus(state: RecoveryState, a: Adaptivity): real {
    if state.stressLevel > 60.0 then a.stressManagement * 0.15 else 0.0
  }

  function UnclampedScore(protocol: AdaptiveProtocol, state: RecoveryState): real {
    50.0 + LevelAlignment(state.vfc.level, protocol.adaptivity) + LowRecoveryBonus(state, protocol.adaptivity)
      - FatiguePenalty(state) + StressBonus(state, protocol.adaptivity)
  }

  /** The compatibility score: always within [0, 100], equal to the additive total when that is in range. */
  function ProtocolScore(protocol: AdaptiveProtocol, state: RecoveryState): (score: real)
    ensures 0.0 <= score <= 100.0
    ensures 0.0 <= UnclampedScore(protocol, state) <= 100.0 ==> score == UnclampedScore(protocol, state)
    ensures UnclampedScore(protocol, state) > 100.0 ==> score == 100.0
    ensures UnclampedScore(protocol, state) < 0.0 ==> score == 0.0
  {
    ClampReal(UnclampedScore(protocol, state), 0.0, 100.0)
  }

  /** scoreProtocolForState: a running total adjusted rule by rule, then clamped. */
  method ScoreProtocolForState(protocol: AdaptiveProtocol, state: RecoveryState) returns (score: real)
    ensures score == ProtocolScore(protocol, state)
    ensures 0.0 <= score <= 100.0
  {
    score := 50.0;
    var vfcMatch := state.vfc.level;
    if vfcMatch == Elite {
      score := score + protocol.adaptivity.highVFC * 0.3;
    } else if vfcMatch == Good {
      score := score + protocol.adaptivity.highVFC * 0.25;
    } else if vfcMatch == Adequate {
      score := score + protocol.adaptivity.mediumVFC * 0.25;
    } else if vfcMatch == Compromised {
      score := score + protocol.adaptivity.lowVFC * 0.3;
    } else {
      score := score - 40.0;
    }
    if state.recoveryPercentage < 50.0 && state.vfc.level != Critical {
      score := score + protocol.adaptivity.lowVFC * 0.2;
    }
    if state.fatigueLevel > 70.0 {
      score := score - 20.0;
    }
    if state.stressLevel > 60.0 {
      score := score + protocol.adaptivity.stressManagement * 0.15;
    }
    score := MaxReal(0.0, MinReal(100.0, score));
  }

  /**
   * At the critical level the score ignores every adaptivity value but stress management:
   * step 1 is a flat -40 and the low-recovery bonus never fires.
   */
  lemma CriticalIgnoresAdaptivity(p: AdaptiveProtocol, q: AdaptiveProtocol, state: RecoveryState)
    requires state.vfc.level == Critical
    requires p.adaptivity.stressManagement == q.adaptivity.stressManagement
    ensures LowRecoveryBonus(state, p.adaptivity) == 0.0
    ensures UnclampedScore(p, state) == 10.0 - FatiguePenalty(state) + StressBonus(state, p.adaptivity)
    ensures ProtocolScore(p, state) == ProtocolScore(q, state)
  {
  }

  /** Without stress relief, nothing scores above 10 at the critical level. */
  lemma CriticalScoreAtMostTen(p: AdaptiveProtocol, state: RecoveryState)
    requires state.vfc.level == Critical && state.stressLevel <= 60.0
    ensures ProtocolScore(p, state) <= 10.0
  {
  }

  /** High fatigue always takes exactly 20 off the unclamped total, and never raises the score. */
  lemma FatigueAlwaysPenalises(p: AdaptiveProtocol, rested: RecoveryState, tired: RecoveryState)
    requires rested.fatigueLevel <= 70.0 < tired.fatigueLevel
    requires tired == rested.(fatigueLevel := tired.fatigueLevel)
    ensures UnclampedScore(p, tired) == UnclampedScore(p, rested) - 20.0
    ensures ProtocolScore(p, tired) <= ProtocolScore(p, rested)
  {
  }

  // ===== Readiness score =====

  /** VFC contribution to readiness. */
  function LevelReadiness(level: VFCLevel): real {
    match level
    case Elite => 40.0
    case Good => 30.0
    case Adequate => 15.0
    case Compromised => -15.0
    case Critical => -40.0
  }

  /** Stress contribution to readiness. */
  function StressReadiness(stressLevel: real): real {
    if stressLevel > 70.0 then -15.0 else if stressLevel > 50.0 then -5.0 else 0.0
  }

  /** Fatigue contribution to readiness. */
  function FatigueReadiness(fatigueLevel: real): real {
    if fatigueLevel > 70.0 then -10.0 else 0.0
  }

  function UnroundedReadiness(state: RecoveryState): real {
    50.0 + LevelReadiness(state.vfc.level) + state.sleepQuality / 100.0 * 30.0
      + StressReadiness(state.stressLevel) + FatigueReadiness(state.fatigueLevel)
  }

  /** The readiness score: an integer in [0, 100], the rounded total when that lies in range. */
  function ReadinessScore(state: RecoveryState): (r: int)
    ensures 0 <= r <= 100
    ensures 0 <= Round(UnroundedReadiness(state)) <= 100 ==> r == Round(UnroundedReadiness(state))
    ensures Round(UnroundedReadiness(state)) > 100 ==> r == 100
    ensures Round(UnroundedReadiness(state)) < 0 ==> r == 0
  {
    ClampInt(Round(UnroundedReadiness(state)), 0, 100)
  }

  /** calculateReadinessScore: a running total adjusted rule by rule, rounded, then clamped. */
  method CalculateReadinessScore(state: RecoveryState) returns (r: int)
    ensures r == ReadinessScore(state)
    ensures 0 <= r <= 100
  {
    var score := 50.0;
    if state.vfc.level == Elite {
      score := score + 40.0;
    } else if state.vfc.level == Good {
      score := score + 30.0;
    } else if state.vfc.level == Adequate {
      score := score + 15.0;
    } else if state.vfc.level == Compromised {
      score := score - 15.0;
    } else {
      score := score - 40.0;
    }
    score := score + (state.sleepQuality / 100.0) * 30.0;
    if state.stressLevel > 70.0 {
      score := score - 15.0;
    } else if state.stressLevel > 50.0 {
      score := score - 5.0;
    }
    if state.fatigueLevel > 70.0 {
      score := score - 10.0;
    }
    var rounded := Round(score);
    r := if rounded > 100 then 100 else rounded;
    r := if r < 0 then 0 else r;
  }

  /** Better sleep never lowers readiness. */
  lemma ReadinessMonotoneInSleep(state: RecoveryState, betterSleep: real)
    requires betterSleep >= state.sleepQuality
    ensures ReadinessScore(state) <= ReadinessScore(state.(sleepQuality := betterSleep))
  {
    RoundMonotone(UnroundedReadiness(state), UnroundedReadiness(state.(sleepQuality := betterSleep)));
  }

  /**
   * A compromised reading with sleep quality 60, stress 40 and fatigue 30 gives
   * 50 - 15 + 18 = 53.
   */
  lemma ReadinessExample(state: RecoveryState)
    requires state.vfc.level == Compromised
    requires state.sleepQuality == 60.0 && state.stressLevel == 40.0 && state.fatigueLevel == 30.0
    ensures ReadinessScore(state) == 53
  {
    RoundOfInt(53);
  }
}
