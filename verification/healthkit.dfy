/**
 * HealthKit data types and the helpers over them: the Apple Health sleep transform, workout
 * intensity from calorie burn, the daily snapshot and its overall health score.
 * Dates are milliseconds since the epoch; fields no modelled helper reads are left out.
 */
module HealthKit {
  import opened Wrappers
  import opened Numbers

  datatype IntensityLevel = Light | Moderate | Vigorous | Max

  datatype SleepStage = LightStage | DeepStage | RemStage | AwakeStage

  datatype SleepCycle = SleepCycle(stage: SleepStage, startMs: real, endMs: real, durationSeconds: real)

  /** A night of sleep; durations are in minutes. */
  datatype DetailedSleepData = DetailedSleepData(
    id: string, dateMs: real, startMs: real, endMs: real,
    totalDuration: real, inBedDuration: real, asleepDuration: real,
    sleepCycles: seq<SleepCycle>,
    deepSleepDuration: real, remDuration: real, lightSleepDuration: real, awakeDuration: real,
    sleepEfficiency: real, sleepLatency: real, timeAwakeAfterOnset: real,
    sleepStage: SleepStage, sleepScore: Option<real>, source: string)

  datatype Rings = Rings(move: real, exercise: real, stand: real)

  datatype DailyActivity = DailyActivity(dateMs: real, activeEnergyBurned: real, rings: Rings, stepCount: real)

  datatype WorkoutSession = WorkoutSession(id: string, durationSeconds: real, calories: real, intensity: IntensityLevel)

  datatype DailyNutrition = DailyNutrition(dateMs: real, totalCalories: real)

  datatype RecoveryMetrics = RecoveryMetrics(timestampMs: real, recoveryScore: real)

  datatype VitalSigns = VitalSigns(timestampMs: real, heartRate: Option<real>)

  datatype BiometricMeasurement = BiometricMeasurement(timestampMs: real, weight: Option<real>)

  datatype StressData = StressData(timestampMs: real, level: real)

  datatype MenstrualCycleData = MenstrualCycleData(dateMs: real, dayOfCycle: int)

  datatype DailyHealthSnapshot = DailyHealthSnapshot(
    dateMs: real,
    sleep: Option<DetailedSleepData>,
    activity: Option<DailyActivity>,
    workouts: Option<seq<WorkoutSession>>,
    nutrition: Option<DailyNutrition>,
    vitalSigns: Option<seq<VitalSigns>>,
    biometrics: Option<BiometricMeasurement>,
    recovery: Option<RecoveryMetrics>,
    stress: Option<seq<StressData>>,
    menstrual: Option<MenstrualCycleData>)

  /** A number that JavaScript treats as false: absent or zero (NaN is not modelled). */
  predicate Falsy(x: Option<real>) {
    x.None? || x.value == 0.0
  }

  /**
   * Calories per minute decide the level: above 15 vigorous, above 10 moderate, otherwise
   * light; moderate when either figure is missing or zero. Max is never produced.
   */
  function DetermineIntensity(calories: Option<real>, duration: Option<real>): (level: IntensityLevel)
    ensures level != Max
    ensures Falsy(calories) || Falsy(duration) ==> level == Moderate
    ensures !Falsy(calories) && !Falsy(duration) ==>
      var cpm := calories.value / (duration.value / 60.0);
      && (level == Vigorous <==> cpm > 15.0)
      && (level == Moderate <==> 10.0 < cpm <= 15.0)
      && (level == Light <==> cpm <= 10.0)
  {
    if Falsy(calories) || Falsy(duration) then Moderate
    else
      var caloriesPerMinute := calories.value / (duration.value / 60.0);
      if caloriesPerMinute > 15.0 then Vigorous
      else if caloriesPerMinute > 10.0 then Moderate
      else if caloriesPerMinute > 5.0 then Light
      else Light
  }

  /**
   * An Apple Health sleep sample: the time in bed split by fixed estimates (90% asleep; 15% deep,
   * 20% REM, 55% light, 10% awake). The sample's UUID is kept when present and non-empty,
   * otherwise `freshId` (a newly generated UUID) is used.
   */
  function TransformAppleHealthSleep(uuid: Option<string>, freshId: string, startMs: real, endMs: real): (s: DetailedSleepData)
    ensures s.inBedDuration == (endMs - startMs) / 60000.0
    ensures s.id == (if uuid.Some? && uuid.value != "" then uuid.value else freshId)
    ensures s.totalDuration == s.inBedDuration
    ensures s.deepSleepDuration + s.remDuration + s.lightSleepDuration + s.awakeDuration == s.inBedDuration
    ensures s.deepSleepDuration + s.remDuration + s.lightSleepDuration == s.asleepDuration
    ensures s.asleepDuration + s.awakeDuration == s.inBedDuration
    ensures s.dateMs == startMs && s.startMs == startMs && s.endMs == endMs
    ensures s.asleepDuration == 0.9 * s.inBedDuration
    ensures s.deepSleepDuration == 0.15 * s.inBedDuration && s.remDuration == 0.20 * s.inBedDuration
    ensures s.lightSleepDuration == 0.55 * s.inBedDuration && s.awakeDuration == 0.10 * s.inBedDuration
    ensures s.sleepEfficiency == 90.0 && s.sleepLatency == 15.0 && s.timeAwakeAfterOnset == 10.0
    ensures s.sleepCycles == [] && s.sleepScore == Some(85.0) && s.sleepStage == DeepStage
    ensures s.source == "apple_health"
  {
    var inBed := (endMs - startMs) / 60000.0;
    DetailedSleepData(
      if uuid.Some? && uuid.value != "" then uuid.value else freshId,
      startMs, startMs, endMs,
      inBed, inBed, inBed * 0.9,
      [],
      inBed * 0.15, inBed * 0.20, inBed * 0.55, inBed * 0.10,
      90.0, 15.0, 10.0,
      DeepStage, Some(85.0), "apple_health")
  }

  /** A snapshot of the given components; vital signs, biometrics, stress and cycle data absent. */
  function CreateHealthSnapshot(
    dateMs: real, sleep: Option<DetailedSleepData>, activity: Option<DailyActivity>,
    workouts: Option<seq<WorkoutSession>>, nutrition: Option<DailyNutrition>,
    recovery: Option<RecoveryMetrics>): (snap: DailyHealthSnapshot)
    ensures snap.dateMs == dateMs && snap.sleep == sleep && snap.activity == activity
    ensures snap.workouts == workouts && snap.nutrition == nutrition && snap.recovery == recovery
    ensures snap.vitalSigns.None? && snap.biometrics.None? && snap.stress.None? && snap.menstrual.None?
  {
    DailyHealthSnapshot(dateMs, sleep, activity, workouts, nutrition, None, None, recovery, None, None)
  }

  /** Sleep: 30% of the sleep score, a missing or zero score counting as 70. */
  function SleepPoints(snapshot: DailyHealthSnapshot): real {
    if snapshot.sleep.Some? then
      (if Falsy(snapshot.sleep.value.sleepScore) then 70.0 else snapshot.sleep.value.sleepScore.value) * 0.3
    else 0.0
  }

  /** Activity: the mean ring completion as a share of 25 points. */
  function ActivityPoints(snapshot: DailyHealthSnapshot): real {
    if snapshot.activity.Some? then
      var r := snapshot.activity.value.rings;
      ((r.move + r.exercise + r.stand) / 3.0) / 100.0 * 25.0
    else 0.0
  }

  /** Workouts: 20 points for at least one workout. */
  function WorkoutPoints(snapshot: DailyHealthSnapshot): real {
    if snapshot.workouts.Some? && |snapshot.workouts.value| > 0 then 20.0 else 0.0
  }

  /** Recovery: the recovery score as a share of 15 points. */
  function RecoveryPoints(snapshot: DailyHealthSnapshot): real {
    if snapshot.recovery.Some? then snapshot.recovery.value.recoveryScore / 100.0 * 15.0 else 0.0
  }

  /** Nutrition: calories against a 2500 kcal target, capped at 100%, as a share of 10 points. */
  function NutritionPoints(snapshot: DailyHealthSnapshot): real {
    if snapshot.nutrition.Some? then
      MinReal(100.0, snapshot.nutrition.value.totalCalories / 2500.0 * 100.0) / 100.0 * 10.0
    else 0.0
  }

  function UnroundedHealthScore(snapshot: DailyHealthSnapshot): real {
    50.0 + SleepPoints(snapshot) + ActivityPoints(snapshot) + WorkoutPoints(snapshot)
      + RecoveryPoints(snapshot) + NutritionPoints(snapshot)
  }

  /** The overall score: 50 plus the contributions, rounded and capped at 100. */
  function HealthScore(snapshot: DailyHealthSnapshot): (score: int)
    ensures score <= 100
    ensures Round(UnroundedHealthScore(snapshot)) <= 100 ==> score == Round(UnroundedHealthScore(snapshot))
    ensures Round(UnroundedHealthScore(snapshot)) >= 100 ==> score == 100
  {
    var rounded := Round(UnroundedHealthScore(snapshot));
    if rounded < 100 then rounded else 100
  }

  /** calculateHealthScore: the score accumulated component by component. */
  method CalculateHealthScore(snapshot: DailyHealthSnapshot) returns (result: int)
    ensures result == HealthScore(snapshot)
  {
    var score := 50.0;
    if snapshot.sleep.Some? {
      var sleepScore := snapshot.sleep.value.sleepScore;
      score := score + (if Falsy(sleepScore) then 70.0 else sleepScore.value) * 0.3;
    }
    assert score == 50.0 + SleepPoints(snapshot);
    if snapshot.activity.Some? {
      var rings := snapshot.activity.value.rings;
      var activityRings := (rings.move + rings.exercise + rings.stand) / 3.0;
      score := score + (activityRings / 100.0) * 25.0;
    }
    assert score == 50.0 + SleepPoints(snapshot) + ActivityPoints(snapshot);
    if snapshot.workouts.Some? && |snapshot.workouts.value| > 0 {
      score := score + 20.0;
    }
    assert score == 50.0 + SleepPoints(snapshot) + ActivityPoints(snapshot) + WorkoutPoints(snapshot);
    if snapshot.recovery.Some? {
      score := score + (snapshot.recovery.value.recoveryScore / 100.0) * 15.0;
    }
    assert score == UnroundedHealthScore(snapshot) - NutritionPoints(snapshot);
    if snapshot.nutrition.Some? {
      var nutritionBalance := MinReal(100.0, (snapshot.nutrition.value.totalCalories / 2500.0) * 100.0);
      score := score + (nutritionBalance / 100.0) * 10.0;
    }
    result := Round(score);
    if result > 100 {
      result := 100;
    }
  }

  /** A snapshot with no components scores 50. */
  lemma EmptySnapshotScoresFifty(dateMs: real)
    ensures HealthScore(CreateHealthSnapshot(dateMs, None, None, None, None, None)) == 50
  {
    RoundOfInt(50);
  }

  /** Scores of components in their 0-100 ranges (and non-negative calories) keep the total in [50, 100]. */
  lemma HealthScoreInRange(snapshot: DailyHealthSnapshot)
    requires snapshot.sleep.Some? && snapshot.sleep.value.sleepScore.Some? ==>
      0.0 <= snapshot.sleep.value.sleepScore.value <= 100.0
    requires snapshot.activity.Some? ==>
      var r := snapshot.activity.value.rings;
      0.0 <= r.move <= 100.0 && 0.0 <= r.exercise <= 100.0 && 0.0 <= r.stand <= 100.0
    requires snapshot.recovery.Some? ==> 0.0 <= snapshot.recovery.value.recoveryScore <= 100.0
    requires snapshot.nutrition.Some? ==> 0.0 <= snapshot.nutrition.value.totalCalories
    ensures 50 <= HealthScore(snapshot) <= 100
  {
    assert UnroundedHealthScore(snapshot) >= 50.0;
    RoundOfInt(50);
    RoundMonotone(50.0, UnroundedHealthScore(snapshot));
  }

  /** The lower end is not clamped: a negative recovery score can take the total below 50. */
  lemma HealthScoreHasNoLowerClamp()
    ensures HealthScore(DailyHealthSnapshot(0.0, None, None, None, None, None, None,
      Some(RecoveryMetrics(0.0, -1000.0)), None, None)) == -100
  {
    assert Round(-100.0) == -100;
  }

  /** Adding a first workout adds 20 points before rounding, whatever else is recorded. */
  lemma FirstWorkoutAddsTwenty(snapshot: DailyHealthSnapshot, w: WorkoutSession)
    requires snapshot.workouts.None? || snapshot.workouts.value == []
    ensures UnroundedHealthScore(snapshot.(workouts := Some([w]))) == UnroundedHealthScore(snapshot) + 20.0
  {
  }
}
