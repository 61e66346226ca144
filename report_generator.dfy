/**
 * The periodic safety report (lib/ai/safety-report-generator.ts).
 *
 * A report aggregates what the other stages produced over a period: the
 * behaviour analyses, the accident predictions, the driving events and the
 * trips. It computes a mean safety score, counts events by type and by
 * severity, classifies the risk trend, awards achievements, names
 * improvement areas and recommendations, compares with the previous period
 * and with peers, and reports the most common risk and the safest and
 * riskiest hours of the day.
 *
 * The clock is a parameter (`now`, in milliseconds, and the instant one
 * calendar month before it); the report id is a parameter too.
 */
module ReportGenerator {
  import opened Numeric
  import opened Folds
  import BA = BehaviorAnalyzer
  import AP = AccidentPredictor

  datatype ReportType = Daily | Weekly | Monthly

  datatype Trip = Trip(distance: real, duration: real, safetyScore: real, timestamp: BA.Timestamp)

  datatype Priority = Critical | High | Medium | Low

  datatype Trend = Improving | Stable | Worsening

  // ------------------------------------------------------------------ period

  const DayMillis: int := 86400000

  datatype Period = Period(periodStart: int, periodEnd: int)

  /**
   * calculatePeriod: the period ends now and starts one day, seven days or
   * one calendar month earlier; the calendar supplies the month step.
   */
  function CalculatePeriod(reportType: ReportType, now: int, oneMonthEarlier: int): (p: Period)
    ensures p.periodEnd == now
    ensures reportType == Daily ==> now - p.periodStart == DayMillis
    ensures reportType == Weekly ==> now - p.periodStart == 7 * DayMillis
    ensures reportType == Monthly ==> p.periodStart == oneMonthEarlier
  {
    match reportType
    case Daily => Period(now - DayMillis, now)
    case Weekly => Period(now - 7 * DayMillis, now)
    case Monthly => Period(oneMonthEarlier, now)
  }

  // ------------------------------------------------------------ overall score

  function AnalysisScore(a: BA.BehaviorAnalysisResult): real
  {
    a.overallScore
  }

  /** calculateOverallSafetyScore: the rounded mean of the analyses' scores, 100 without analyses. */
  function OverallSafetyScore(analyses: seq<BA.BehaviorAnalysisResult>): (r: int)
    ensures analyses == [] ==> r == 100
    ensures analyses != [] ==> MeanOf(analyses, AnalysisScore) - 0.5 < r as real <= MeanOf(analyses, AnalysisScore) + 0.5
  {
    if |analyses| == 0 then 100 else Round(MeanOf(analyses, AnalysisScore))
  }

  /** Scores in [0, 100] give an overall score in [0, 100]. */
  lemma {:induction false} OverallSafetyScoreBounds(analyses: seq<BA.BehaviorAnalysisResult>)
    requires forall i :: 0 <= i < |analyses| ==> 0.0 <= analyses[i].overallScore <= 100.0
    ensures 0 <= OverallSafetyScore(analyses) <= 100
  {
    if analyses != [] {
      MeanOfBounds(analyses, AnalysisScore, 0.0, 100.0);
      RoundWithin(MeanOf(analyses, AnalysisScore), 0, 100);
    }
  }

  /** JavaScript truthiness of the optional previous score: absent and 0 are both falsy. */
  predicate Truthy(previous: Option<real>)
  {
    previous.Some? && previous.value != 0.0
  }

  /** `previousPeriodScore ? overall - previousPeriodScore : 0` */
  function ScoreChange(overall: int, previous: Option<real>): (r: real)
    ensures !Truthy(previous) ==> r == 0.0
    ensures Truthy(previous) ==> r + previous.value == overall as real
  {
    if Truthy(previous) then overall as real - previous.value else 0.0
  }

  /** `previousPeriodScore || overallSafetyScore` */
  function PreviousOrCurrent(overall: int, previous: Option<real>): (r: real)
    ensures Truthy(previous) ==> r == previous.value
    ensures !Truthy(previous) ==> r == overall as real
  {
    if Truthy(previous) then previous.value else overall as real
  }

  // ------------------------------------------------------------------ summary

  predicate IsCriticalEvent(e: BA.DrivingEvent)
  {
    e.severity == BA.Critical
  }

  predicate IsLowEvent(e: BA.DrivingEvent)
  {
    e.severity == BA.Low
  }

  /** `round(low / total * 100)`, 100 without events. */
  function SafeDrivingPercentage(events: seq<BA.DrivingEvent>): (r: int)
    ensures 0 <= r <= 100
    ensures events == [] ==> r == 100
    ensures events != [] && CountWhere(events, IsLowEvent) == 0 ==> r == 0
    ensures CountWhere(events, IsLowEvent) == |events| ==> r == 100
  {
    if |events| > 0 then
      var low := CountWhere(events, IsLowEvent);
      PercentageBounds(low, |events|);
      Round(low as real / |events| as real * 100.0)
    else
      100
  }

  lemma {:induction false} PercentageBounds(part: nat, total: nat)
    requires 0 < total && part <= total
    ensures 0 <= Round(part as real / total as real * 100.0) <= 100
    ensures part == 0 ==> Round(part as real / total as real * 100.0) == 0
    ensures part == total ==> Round(part as real / total as real * 100.0) == 100
  {
    var x := part as real / total as real;
    DivisionBounds(part as real, total as real, 0.0, 1.0);
    RoundWithin(x * 100.0, 0, 100);
    if part == total {
      assert x == 1.0;
    }
  }

  datatype Summary = Summary(
    safeDrivingPercentage: int,
    riskIncidentsCount: nat,
    criticalEventsCount: nat,
    averageRiskLevel: AP.RiskLevel)

  function RiskLevels(predictions: seq<AP.AccidentPrediction>): (r: seq<AP.RiskLevel>)
    ensures |r| == |predictions|
    ensures forall i :: 0 <= i < |predictions| ==> r[i] == predictions[i].riskLevel
  {
    seq(|predictions|, i requires 0 <= i < |predictions| => predictions[i].riskLevel)
  }

  /** getMostCommonRiskLevel: 'low' without predictions, else the most common level. */
  function MostCommonRiskLevel(levels: seq<AP.RiskLevel>): (r: AP.RiskLevel)
    ensures levels == [] ==> r == AP.Low
    ensures levels != [] ==> r in levels
    ensures forall i :: 0 <= i < |levels| ==> multiset(levels)[levels[i]] <= multiset(levels)[r]
  {
    if |levels| == 0 then AP.Low
    else
      MostCommonIsMostFrequent(levels);
      MostCommonOf(levels).value
  }

  /** generateSummary */
  function GenerateSummary(events: seq<BA.DrivingEvent>, predictions: seq<AP.AccidentPrediction>): (s: Summary)
    ensures s.riskIncidentsCount == |events|
    ensures s.criticalEventsCount <= s.riskIncidentsCount
    ensures 0 <= s.safeDrivingPercentage <= 100
    ensures predictions == [] ==> s.averageRiskLevel == AP.Low
    ensures predictions != [] ==> exists i :: 0 <= i < |predictions| && predictions[i].riskLevel == s.averageRiskLevel
  {
    var levels := RiskLevels(predictions);
    Summary(SafeDrivingPercentage(events), |events|, CountWhere(events, IsCriticalEvent), MostCommonRiskLevel(levels))
  }

  // ----------------------------------------------------- behaviour aggregation

  datatype DrivingBehavior = DrivingBehavior(
    overspeedingIncidents: nat,
    harshBrakingCount: nat,
    rapidAccelerationCount: nat,
    sharpTurnCount: nat,
    fatigueDetections: nat,
    distractedDrivingEvents: nat)

  function TypeCountSum(events: seq<BA.DrivingEvent>): nat
  {
    BA.CountType(events, BA.Overspeeding) + BA.CountType(events, BA.HarshBraking)
    + BA.CountType(events, BA.RapidAcceleration) + BA.CountType(events, BA.SharpTurn)
    + BA.CountType(events, BA.Fatigue) + BA.CountType(events, BA.DistractedDriving)
  }

  /** Each event has one type, so the six per-type counts add up to at most the number of events. */
  lemma {:induction false} TypeCountSumBound(events: seq<BA.DrivingEvent>)
    ensures TypeCountSum(events) <= |events|
  {
    if events != [] {
      TypeCountSumBound(events[..|events| - 1]);
    }
  }

  /** aggregateDrivingBehavior: counts of the events by type; the analyses are not consulted. */
  function AggregateDrivingBehavior(analyses: seq<BA.BehaviorAnalysisResult>, events: seq<BA.DrivingEvent>): (b: DrivingBehavior)
    ensures b.overspeedingIncidents + b.harshBrakingCount + b.rapidAccelerationCount
          + b.sharpTurnCount + b.fatigueDetections + b.distractedDrivingEvents <= |events|
    ensures forall i :: 0 <= i < |events| && events[i].eventType == BA.Overspeeding ==> b.overspeedingIncidents > 0
  {
    TypeCountSumBound(events);
    var b := DrivingBehavior(
      BA.CountType(events, BA.Overspeeding),
      BA.CountType(events, BA.HarshBraking),
      BA.CountType(events, BA.RapidAcceleration),
      BA.CountType(events, BA.SharpTurn),
      BA.CountType(events, BA.Fatigue),
      BA.CountType(events, BA.DistractedDriving));
    BA.CountTypeZero(events, BA.Overspeeding);
    b
  }

  // ------------------------------------------------------------- risk analysis

  datatype RiskAnalysis = RiskAnalysis(
    highRiskTrips: nat,
    accidentPredictionsCount: nat,
    averageRiskScore: real,
    riskTrend: Trend)

  predicate IsHighRiskTrip(t: Trip)
  {
    t.safetyScore < 60.0
  }

  predicate IsHighOrCritical(p: AP.AccidentPrediction)
  {
    p.riskLevel == AP.High || p.riskLevel == AP.Critical
  }

  function Id(x: real): real
  {
    x
  }

  function RiskScores(predictions: seq<AP.AccidentPrediction>): (r: seq<real>)
    ensures |r| == |predictions|
    ensures forall i :: 0 <= i < |predictions| ==> r[i] == predictions[i].riskScore
  {
    seq(|predictions|, i requires 0 <= i < |predictions| => predictions[i].riskScore)
  }

  /** The mean risk score, 0 without predictions. */
  function AverageRiskScore(scores: seq<real>): (r: real)
    ensures scores == [] ==> r == 0.0
  {
    if |scores| > 0 then MeanOf(scores, Id) else 0.0
  }

  lemma {:induction false} AverageRiskScoreBounds(scores: seq<real>)
    requires forall i :: 0 <= i < |scores| ==> 0.0 <= scores[i] <= 1.0
    ensures 0.0 <= AverageRiskScore(scores) <= 1.0
  {
    if scores != [] {
      MeanOfBounds(scores, Id, 0.0, 1.0);
    }
  }

  /** Recent against older risk, with a dead band of 0.1 either way. */
  function TrendOf(recent: real, older: real): (t: Trend)
    ensures t == Stable <==> older - 0.1 <= recent <= older + 0.1
  {
    if recent < older - 0.1 then Improving
    else if recent > older + 0.1 then Worsening
    else Stable
  }

  /**
   * The risk trend as the source computes it: predictions are newest first;
   * the first floor(n/2) scores are summed and divided by ceil(n/2), the
   * remaining ceil(n/2) scores are summed and divided by floor(n/2). For
   * odd n each half is divided by the other half's length.
   */
  function RiskTrendAsWritten(scores: seq<real>): (t: Trend)
    ensures |scores| < 2 ==> t == Stable
  {
    if |scores| < 2 then Stable
    else
      var half := |scores| / 2;
      var recent := SumOf(scores[..half], Id) / ((|scores| + 1) / 2) as real;
      var older := SumOf(scores[half..], Id) / half as real;
      TrendOf(recent, older)
  }

  /** The risk trend with each half averaged over its own length. */
  function RiskTrend(scores: seq<real>): (t: Trend)
    ensures |scores| < 2 ==> t == Stable
  {
    if |scores| < 2 then Stable
    else
      var half := |scores| / 2;
      TrendOf(MeanOf(scores[..half], Id), MeanOf(scores[half..], Id))
  }

  /** Three predictions of equal risk read as improving in the source. */
  lemma {:induction false} RiskTrendAsWrittenFlatScores()
    ensures RiskTrendAsWritten([0.5, 0.5, 0.5]) == Improving
    ensures RiskTrend([0.5, 0.5, 0.5]) == Stable
  {
    var s := [0.5, 0.5, 0.5];
    assert s[..1] == [0.5];
    assert s[1..] == [0.5, 0.5];
    assert [0.5, 0.5][..1] == [0.5];
    assert SumOf([0.5], Id) == 0.5;
    assert SumOf([0.5, 0.5], Id) == 1.0;
  }

  /** A riskier newest prediction reads as improving in the source, and as worsening once each half is averaged. */
  lemma {:induction false} RiskTrendAsWrittenReversed()
    ensures RiskTrendAsWritten([0.5, 0.3, 0.3]) == Improving
    ensures RiskTrend([0.5, 0.3, 0.3]) == Worsening
  {
    var s := [0.5, 0.3, 0.3];
    assert s[..1] == [0.5];
    assert s[1..] == [0.3, 0.3];
    assert [0.3, 0.3][..1] == [0.3];
    assert SumOf([0.5], Id) == 0.5;
    assert SumOf([0.3, 0.3], Id) == 0.6;
  }

  /** For an even number of predictions the two halves have equal length and both computations agree. */
  lemma {:induction false} RiskTrendAsWrittenEvenLength(scores: seq<real>)
    requires |scores| % 2 == 0
    ensures RiskTrendAsWritten(scores) == RiskTrend(scores)
  {
    if |scores| >= 2 {
      var half := |scores| / 2;
      assert (|scores| + 1) / 2 == half;
      assert |scores[..half]| == half && |scores[half..]| == half;
    }
  }

  /** Predictions of one constant risk give a stable trend. */
  lemma {:induction false} RiskTrendFlat(scores: seq<real>, v: real)
    requires forall i :: 0 <= i < |scores| ==> scores[i] == v
    ensures RiskTrend(scores) == Stable
  {
    if |scores| >= 2 {
      var half := |scores| / 2;
      MeanOfBounds(scores[..half], Id, v, v);
      MeanOfBounds(scores[half..], Id, v, v);
    }
  }

  /** Recent scores all at most `m`, older ones all at least `m'` > m + 0.1: improving. */
  lemma {:induction false} RiskTrendImproving(scores: seq<real>, m: real, m': real)
    requires |scores| >= 2 && m + 0.1 < m'
    requires forall i :: 0 <= i < |scores| / 2 ==> scores[i] <= m
    requires forall i :: |scores| / 2 <= i < |scores| ==> scores[i] >= m'
    ensures RiskTrend(scores) == Improving
  {
    var half := |scores| / 2;
    MeanOfAtMost(scores[..half], Id, m);
    MeanOfAtLeast(scores[half..], Id, m');
  }

  /** Recent scores all at least `m'`, older ones all at most `m` < m' - 0.1: worsening. */
  lemma {:induction false} RiskTrendWorsening(scores: seq<real>, m: real, m': real)
    requires |scores| >= 2 && m + 0.1 < m'
    requires forall i :: 0 <= i < |scores| / 2 ==> scores[i] >= m'
    requires forall i :: |scores| / 2 <= i < |scores| ==> scores[i] <= m
    ensures RiskTrend(scores) == Worsening
  {
    var half := |scores| / 2;
    MeanOfAtLeast(scores[..half], Id, m');
    MeanOfAtMost(scores[half..], Id, m);
  }

  /** analyzeRisks, with the trend computed as the source computes it. */
  function AnalyzeRisks(trips: seq<Trip>, predictions: seq<AP.AccidentPrediction>): (r: RiskAnalysis)
    ensures r.highRiskTrips <= |trips| && r.accidentPredictionsCount <= |predictions|
    ensures predictions == [] ==> r.averageRiskScore == 0.0
    ensures |predictions| < 2 ==> r.riskTrend == Stable
  {
    var scores := RiskScores(predictions);
    RiskAnalysis(
      CountWhere(trips, IsHighRiskTrip),
      CountWhere(predictions, IsHighOrCritical),
      AverageRiskScore(scores),
      RiskTrendAsWritten(scores))
  }

  // -------------------------------------------------------------- achievements

  datatype AchievementTitle = SafetyChampion | SpeedGuardian | SmoothOperator | ConsistentDriver

  /** The description: the champion's names the score and the report period, the others are fixed. */
  datatype AchievementText =
    | MaintainedScore(score: int, reportType: ReportType)
    | NoOverspeeding
    | ZeroHarshBraking
    | HighStandards

  datatype Achievement = Achievement(title: AchievementTitle, description: AchievementText, earnedAt: int)

  function TitleRank(t: AchievementTitle): nat
  {
    match t
    case SafetyChampion => 0
    case SpeedGuardian => 1
    case SmoothOperator => 2
    case ConsistentDriver => 3
  }

  function TitleOf(a: Achievement): AchievementTitle
  {
    a.title
  }

  function Titles(a: seq<Achievement>): seq<AchievementTitle>
  {
    Map(a, TitleOf)
  }

  /** The achievement list identifyAchievements builds. */
  function Achievements(score: int, behavior: DrivingBehavior, tripCount: nat, reportType: ReportType, now: int): (r: seq<Achievement>)
    ensures |r| <= 4
    ensures forall i :: 0 <= i < |r| ==> r[i].earnedAt == now
    ensures score < 85 && tripCount <= 5 ==> r == []
  {
    When(score >= 90, Achievement(SafetyChampion, MaintainedScore(score, reportType), now))
    + When(behavior.overspeedingIncidents == 0 && tripCount > 5, Achievement(SpeedGuardian, NoOverspeeding, now))
    + When(behavior.harshBrakingCount == 0 && tripCount > 5, Achievement(SmoothOperator, ZeroHarshBraking, now))
    + When(tripCount >= 20 && score >= 85, Achievement(ConsistentDriver, HighStandards, now))
  }

  /** At most four achievements, each present exactly when its rule holds, in the fixed rule order. */
  lemma {:induction false} AchievementsRules(score: int, behavior: DrivingBehavior, tripCount: nat, reportType: ReportType, now: int)
    ensures var t := Titles(Achievements(score, behavior, tripCount, reportType, now));
      && |t| <= 4
      && (forall i, j :: 0 <= i < j < |t| ==> TitleRank(t[i]) < TitleRank(t[j]))
      && (SafetyChampion in t <==> score >= 90)
      && (SpeedGuardian in t <==> behavior.overspeedingIncidents == 0 && tripCount > 5)
      && (SmoothOperator in t <==> behavior.harshBrakingCount == 0 && tripCount > 5)
      && (ConsistentDriver in t <==> tripCount >= 20 && score >= 85)
  {
    AchievementTitles(score, behavior, tripCount, reportType, now);
    TitleRules(score >= 90, behavior.overspeedingIncidents == 0 && tripCount > 5,
               behavior.harshBrakingCount == 0 && tripCount > 5, tripCount >= 20 && score >= 85);
  }

  /** The titles of the satisfied rules, in rule order: each present exactly when its rule holds, ranks increasing. */
  lemma {:induction false} TitleRules(champion: bool, guardian: bool, smooth: bool, consistent: bool)
    ensures var t := When(champion, SafetyChampion) + When(guardian, SpeedGuardian)
                     + When(smooth, SmoothOperator) + When(consistent, ConsistentDriver);
      && |t| <= 4
      && (forall i, j :: 0 <= i < j < |t| ==> TitleRank(t[i]) < TitleRank(t[j]))
      && (SafetyChampion in t <==> champion)
      && (SpeedGuardian in t <==> guardian)
      && (SmoothOperator in t <==> smooth)
      && (ConsistentDriver in t <==> consistent)
  {
    RanksIncreasing(When(champion, SafetyChampion), When(guardian, SpeedGuardian),
                    When(smooth, SmoothOperator), When(consistent, ConsistentDriver));
  }

  /** The titles of the achievements are the titles of the satisfied rules, in rule order. */
  lemma {:induction false} AchievementTitles(score: int, behavior: DrivingBehavior, tripCount: nat, reportType: ReportType, now: int)
    ensures Titles(Achievements(score, behavior, tripCount, reportType, now)) ==
      When(score >= 90, SafetyChampion)
      + When(behavior.overspeedingIncidents == 0 && tripCount > 5, SpeedGuardian)
      + When(behavior.harshBrakingCount == 0 && tripCount > 5, SmoothOperator)
      + When(tripCount >= 20 && score >= 85, ConsistentDriver)
  {
    var a1 := When(score >= 90, Achievement(SafetyChampion, MaintainedScore(score, reportType), now));
    var a2 := When(behavior.overspeedingIncidents == 0 && tripCount > 5, Achievement(SpeedGuardian, NoOverspeeding, now));
    var a3 := When(behavior.harshBrakingCount == 0 && tripCount > 5, Achievement(SmoothOperator, ZeroHarshBraking, now));
    var a4 := When(tripCount >= 20 && score >= 85, Achievement(ConsistentDriver, HighStandards, now));
    MapAppend(a1, a2, TitleOf);
    MapAppend(a1 + a2, a3, TitleOf);
    MapAppend(a1 + a2 + a3, a4, TitleOf);
    MapWhen(score >= 90, Achievement(SafetyChampion, MaintainedScore(score, reportType), now), TitleOf);
    MapWhen(behavior.overspeedingIncidents == 0 && tripCount > 5, Achievement(SpeedGuardian, NoOverspeeding, now), TitleOf);
    MapWhen(behavior.harshBrakingCount == 0 && tripCount > 5, Achievement(SmoothOperator, ZeroHarshBraking, now), TitleOf);
    MapWhen(tripCount >= 20 && score >= 85, Achievement(ConsistentDriver, HighStandards, now), TitleOf);
  }

  /** Four groups, each empty or holding its one title, concatenated in rank order, have increasing ranks. */
  lemma {:induction false} RanksIncreasing(t1: seq<AchievementTitle>, t2: seq<AchievementTitle>, t3: seq<AchievementTitle>, t4: seq<AchievementTitle>)
    requires t1 == [] || t1 == [SafetyChampion]
    requires t2 == [] || t2 == [SpeedGuardian]
    requires t3 == [] || t3 == [SmoothOperator]
    requires t4 == [] || t4 == [ConsistentDriver]
    ensures var t := t1 + t2 + t3 + t4; forall i, j :: 0 <= i < j < |t| ==> TitleRank(t[i]) < TitleRank(t[j])
  {
    var t := t1 + t2 + t3 + t4;
    assert forall i :: 0 <= i < |t| ==> TitleRank(t[i]) >= i;
    assert forall i :: 0 <= i < |t| ==> TitleRank(t[i]) <= 4 - |t| + i;
  }

  /** identifyAchievements: pushes one achievement per satisfied rule. */
  method IdentifyAchievements(score: int, behavior: DrivingBehavior, tripCount: nat, reportType: ReportType, now: int)
    returns (achievements: seq<Achievement>)
    ensures achievements == Achievements(score, behavior, tripCount, reportType, now)
  {
    var champion := Achievement(SafetyChampion, MaintainedScore(score, reportType), now);
    var guardian := Achievement(SpeedGuardian, NoOverspeeding, now);
    var smooth := Achievement(SmoothOperator, ZeroHarshBraking, now);
    var consistent := Achievement(ConsistentDriver, HighStandards, now);
    achievements := [];
    if score >= 90 {
      achievements := achievements + [champion];
    }
    assert achievements == When(score >= 90, champion);
    if behavior.overspeedingIncidents == 0 && tripCount > 5 {
      achievements := achievements + [guardian];
    }
    assert achievements == When(score >= 90, champion)
      + When(behavior.overspeedingIncidents == 0 && tripCount > 5, guardian);
    if behavior.harshBrakingCount == 0 && tripCount > 5 {
      achievements := achievements + [smooth];
    }
    assert achievements == When(score >= 90, champion)
      + When(behavior.overspeedingIncidents == 0 && tripCount > 5, guardian)
      + When(behavior.harshBrakingCount == 0 && tripCount > 5, smooth);
    if tripCount >= 20 && score >= 85 {
      achievements := achievements + [consistent];
    }
  }

  // --------------------------------------------------------- improvement areas

  datatype AreaName = SpeedManagement | SmoothBraking | RiskAwareness

  /** The three fixed tips each area carries. */
  datatype AreaTip =
    | UseCruiseControl | SetSpeedLimitAlerts | LeaveEarlier
    | IncreaseFollowingDistance | AnticipateTrafficFlow | BrakeGradually
    | ReviewHighRiskTrips | AvoidFatigueHours | PlanSaferRoutes

  datatype ImprovementArea = ImprovementArea(
    area: AreaName,
    currentScore: int,
    targetScore: int,
    priority: Priority,
    recommendations: seq<AreaTip>)

  /** `Math.max(0, 100 - count * perIncident)` */
  function AreaScore(count: nat, perIncident: nat): (s: int)
    ensures 0 <= s <= 100
    ensures s == 0 || s == 100 - count * perIncident
  {
    if 100 - count * perIncident > 0 then 100 - count * perIncident else 0
  }

  function AreaOf(a: ImprovementArea): AreaName
  {
    a.area
  }

  function Areas(a: seq<ImprovementArea>): seq<AreaName>
  {
    Map(a, AreaOf)
  }

  function SpeedArea(behavior: DrivingBehavior): ImprovementArea
  {
    ImprovementArea(SpeedManagement, AreaScore(behavior.overspeedingIncidents, 5), 90, High,
                    [UseCruiseControl, SetSpeedLimitAlerts, LeaveEarlier])
  }

  function BrakingArea(behavior: DrivingBehavior): ImprovementArea
  {
    ImprovementArea(SmoothBraking, AreaScore(behavior.harshBrakingCount, 8), 90, Medium,
                    [IncreaseFollowingDistance, AnticipateTrafficFlow, BrakeGradually])
  }

  function RiskArea(risk: RiskAnalysis): ImprovementArea
  {
    ImprovementArea(RiskAwareness, AreaScore(risk.highRiskTrips, 10), 85, High,
                    [ReviewHighRiskTrips, AvoidFatigueHours, PlanSaferRoutes])
  }

  /** The improvement areas identifyImprovementAreas builds. */
  function ImprovementAreas(behavior: DrivingBehavior, risk: RiskAnalysis): (r: seq<ImprovementArea>)
    ensures |r| <= 3
    ensures behavior.overspeedingIncidents <= 5 && behavior.harshBrakingCount <= 3 && risk.highRiskTrips <= 2 ==> r == []
  {
    When(behavior.overspeedingIncidents > 5, SpeedArea(behavior))
    + When(behavior.harshBrakingCount > 3, BrakingArea(behavior))
    + When(risk.highRiskTrips > 2, RiskArea(risk))
  }

  /**
   * At most three areas, each present exactly when its threshold is passed,
   * each scored in [0, 100] and strictly below its target.
   */
  lemma {:induction false} ImprovementAreasRules(behavior: DrivingBehavior, risk: RiskAnalysis)
    ensures var r := ImprovementAreas(behavior, risk);
      && |r| <= 3
      && (SpeedManagement in Areas(r) <==> behavior.overspeedingIncidents > 5)
      && (SmoothBraking in Areas(r) <==> behavior.harshBrakingCount > 3)
      && (RiskAwareness in Areas(r) <==> risk.highRiskTrips > 2)
      && (forall i :: 0 <= i < |r| ==> 0 <= r[i].currentScore < r[i].targetScore <= 100)
  {
    var c1, c2, c3 := behavior.overspeedingIncidents > 5, behavior.harshBrakingCount > 3, risk.highRiskTrips > 2;
    AreasOfImprovement(behavior, risk);
    WhenMembers3(c1, SpeedManagement, c2, SmoothBraking, c3, RiskAwareness);
    WhenMembers3(c1, SpeedArea(behavior), c2, BrakingArea(behavior), c3, RiskArea(risk));
    var r := ImprovementAreas(behavior, risk);
    forall i | 0 <= i < |r|
      ensures 0 <= r[i].currentScore < r[i].targetScore <= 100
    {
      assert r[i] in r;
    }
  }

  /** The names of the improvement areas are those of the exceeded thresholds, in order. */
  lemma {:induction false} AreasOfImprovement(behavior: DrivingBehavior, risk: RiskAnalysis)
    ensures Areas(ImprovementAreas(behavior, risk)) ==
      When(behavior.overspeedingIncidents > 5, SpeedManagement)
      + When(behavior.harshBrakingCount > 3, SmoothBraking)
      + When(risk.highRiskTrips > 2, RiskAwareness)
  {
    var a1 := When(behavior.overspeedingIncidents > 5, SpeedArea(behavior));
    var a2 := When(behavior.harshBrakingCount > 3, BrakingArea(behavior));
    var a3 := When(risk.highRiskTrips > 2, RiskArea(risk));
    MapAppend(a1, a2, AreaOf);
    MapAppend(a1 + a2, a3, AreaOf);
    MapWhen(behavior.overspeedingIncidents > 5, SpeedArea(behavior), AreaOf);
    MapWhen(behavior.harshBrakingCount > 3, BrakingArea(behavior), AreaOf);
    MapWhen(risk.highRiskTrips > 2, RiskArea(risk), AreaOf);
  }

  /** identifyImprovementAreas: pushes one area per exceeded threshold. */
  method IdentifyImprovementAreas(behavior: DrivingBehavior, risk: RiskAnalysis) returns (areas: seq<ImprovementArea>)
    ensures areas == ImprovementAreas(behavior, risk)
  {
    areas := [];
    if behavior.overspeedingIncidents > 5 {
      areas := areas + [SpeedArea(behavior)];
    }
    if behavior.harshBrakingCount > 3 {
      areas := areas + [BrakingArea(behavior)];
    }
    if risk.highRiskTrips > 2 {
      areas := areas + [RiskArea(risk)];
    }
  }

  // -------------------------------------------------------- AI recommendations

  datatype Category = SpeedControl | RiskManagement | FatigueManagement

  /** Each category carries a fixed recommendation, expected impact and three steps, determined by the category. */
  datatype AIRecommendation = AIRecommendation(category: Category, priority: Priority)

  function CategoryOf(a: AIRecommendation): Category
  {
    a.category
  }

  function Categories(a: seq<AIRecommendation>): seq<Category>
  {
    Map(a, CategoryOf)
  }

  /** The recommendations generateAIRecommendations builds. */
  function AIRecommendations(areas: seq<ImprovementArea>, behavior: DrivingBehavior, risk: RiskAnalysis): (r: seq<AIRecommendation>)
    ensures |r| <= 3
    ensures forall i :: 0 <= i < |r| ==> r[i].priority in {High, Critical}
    ensures forall i :: 0 <= i < |r| && r[i].priority == Critical ==> risk.riskTrend == Worsening
  {
    When(SpeedManagement in Areas(areas), AIRecommendation(SpeedControl, High))
    + When(risk.riskTrend == Worsening, AIRecommendation(RiskManagement, Critical))
    + When(behavior.fatigueDetections > 2, AIRecommendation(FatigueManagement, High))
  }

  /** generateAIRecommendations: pushes one recommendation per rule. */
  method GenerateAIRecommendations(areas: seq<ImprovementArea>, behavior: DrivingBehavior, risk: RiskAnalysis)
    returns (recommendations: seq<AIRecommendation>)
    ensures recommendations == AIRecommendations(areas, behavior, risk)
  {
    recommendations := [];
    var i := 0;
    var speedArea := false;
    while i < |areas|
      invariant 0 <= i <= |areas|
      invariant speedArea <==> SpeedManagement in Areas(areas)[..i]
    {
      if areas[i].area == SpeedManagement {
        speedArea := true;
      }
      assert Areas(areas)[..i + 1] == Areas(areas)[..i] + [areas[i].area];
      i := i + 1;
    }
    assert Areas(areas)[..|areas|] == Areas(areas);
    if speedArea {
      recommendations := recommendations + [AIRecommendation(SpeedControl, High)];
    }
    if risk.riskTrend == Worsening {
      recommendations := recommendations + [AIRecommendation(RiskManagement, Critical)];
    }
    if behavior.fatigueDetections > 2 {
      recommendations := recommendations + [AIRecommendation(FatigueManagement, High)];
    }
  }

  /**
   * Chained through the improvement areas: speed control is recommended
   * exactly when there were more than five overspeeding incidents; risk
   * management, the only critical one, exactly when the trend worsens;
   * fatigue management exactly after more than two fatigue detections.
   */
  lemma {:induction false} AIRecommendationsRules(behavior: DrivingBehavior, risk: RiskAnalysis)
    ensures var r := AIRecommendations(ImprovementAreas(behavior, risk), behavior, risk);
      && |r| <= 3
      && (SpeedControl in Categories(r) <==> behavior.overspeedingIncidents > 5)
      && (RiskManagement in Categories(r) <==> risk.riskTrend == Worsening)
      && (FatigueManagement in Categories(r) <==> behavior.fatigueDetections > 2)
      && (forall i :: 0 <= i < |r| && r[i].priority == Critical ==> r[i].category == RiskManagement)
  {
    ImprovementAreasRules(behavior, risk);
    var areas := ImprovementAreas(behavior, risk);
    var c1, c2, c3 := SpeedManagement in Areas(areas), risk.riskTrend == Worsening, behavior.fatigueDetections > 2;
    var x1, x2, x3 := AIRecommendation(SpeedControl, High), AIRecommendation(RiskManagement, Critical),
                      AIRecommendation(FatigueManagement, High);
    MapAppend(When(c1, x1), When(c2, x2), CategoryOf);
    MapAppend(When(c1, x1) + When(c2, x2), When(c3, x3), CategoryOf);
    MapWhen(c1, x1, CategoryOf);
    MapWhen(c2, x2, CategoryOf);
    MapWhen(c3, x3, CategoryOf);
    WhenMembers3(c1, SpeedControl, c2, RiskManagement, c3, FatigueManagement);
    WhenMembers3(c1, x1, c2, x2, c3, x3);
    var r := AIRecommendations(areas, behavior, risk);
    forall i | 0 <= i < |r| && r[i].priority == Critical
      ensures r[i].category == RiskManagement
    {
      assert r[i] in r;
    }
  }

  // ------------------------------------------------------- comparative analysis

  datatype BehaviorChange = BehaviorChange(previous: int, current: nat, change: int)

  datatype PeerComparison = PeerComparison(yourScore: int, averageScore: int, percentile: int)

  datatype ComparativeAnalysis = ComparativeAnalysis(
    previousPeriodScore: real,
    scoreImprovement: real,
    overspeeding: BehaviorChange,
    harshBraking: BehaviorChange,
    peerComparison: PeerComparison)

  /** The peer bucket: 95th percentile from 90, 75th from 80, else 50th. */
  function Percentile(score: int): (p: int)
    ensures p in {95, 75, 50}
    ensures p == 95 <==> score >= 90
    ensures p == 50 <==> score < 80
  {
    if score >= 90 then 95 else if score >= 80 then 75 else 50
  }

  lemma {:induction false} PercentileMonotone(a: int, b: int)
    requires a <= b
    ensures Percentile(a) <= Percentile(b)
  {
  }

  /**
   * generateComparativeAnalysis. The "previous" behaviour figures are
   * extrapolated from the current counts (x1.2 and x1.1), so they never fall
   * below the current count and the reported change is never positive.
   */
  function ComparativeAnalysisOf(currentScore: int, previousScore: real, behavior: DrivingBehavior): (c: ComparativeAnalysis)
    ensures c.scoreImprovement == currentScore as real - previousScore
    ensures c.overspeeding.current == behavior.overspeedingIncidents <= c.overspeeding.previous
    ensures c.harshBraking.current == behavior.harshBrakingCount <= c.harshBraking.previous
    ensures c.overspeeding.change <= 0 && c.harshBraking.change <= 0
    ensures c.peerComparison == PeerComparison(currentScore, 78, Percentile(currentScore))
  {
    var o := behavior.overspeedingIncidents;
    var h := behavior.harshBrakingCount;
    ComparativeAnalysis(
      previousScore,
      currentScore as real - previousScore,
      BehaviorChange(Round(o as real * 1.2), o, Round(o as real * -0.2)),
      BehaviorChange(Round(h as real * 1.1), h, Round(h as real * -0.1)),
      PeerComparison(currentScore, 78, Percentile(currentScore)))
  }

  // ------------------------------------------------------------- most common

  /** The `reduce` over the record's entries: a strictly larger count replaces the current choice. */
  function ReduceMax<T>(keys: seq<T>, counts: multiset<T>, init: T): (best: T)
    ensures best == init || best in keys
  {
    if keys == [] then init
    else
      var best := ReduceMax(keys[..|keys| - 1], counts, init);
      if counts[keys[|keys| - 1]] > counts[best] then keys[|keys| - 1] else best
  }

  /** getMostCommon: null on an empty array, else the element the reduce settles on. */
  function MostCommonOf<T(==, !new)>(arr: seq<T>): (r: Option<T>)
    ensures r.None? <==> arr == []
    ensures r.Some? ==> r.value in arr
  {
    if arr == [] then None else Some(ReduceMax(FirstOccurrences(arr), multiset(arr), arr[0]))
  }

  /** The same reduce over every position rather than over the distinct elements: the position it settles on. */
  function ScanMaxIndex<T>(arr: seq<T>, counts: multiset<T>): (k: nat)
    requires arr != []
    ensures k < |arr|
  {
    if |arr| == 1 then 0
    else
      var k := ScanMaxIndex(arr[..|arr| - 1], counts);
      if counts[arr[|arr| - 1]] > counts[arr[k]] then |arr| - 1 else k
  }

  lemma {:induction false} ScanMaxIsMax<T>(arr: seq<T>, counts: multiset<T>)
    requires arr != []
    ensures var k := ScanMaxIndex(arr, counts);
      && (forall i :: 0 <= i < |arr| ==> counts[arr[i]] <= counts[arr[k]])
      && (forall i :: 0 <= i < k ==> counts[arr[i]] < counts[arr[k]])
  {
    if |arr| > 1 {
      var prefix := arr[..|arr| - 1];
      ScanMaxIsMax(prefix, counts);
      assert forall i :: 0 <= i < |prefix| ==> prefix[i] == arr[i];
    }
  }

  /** One more position for the scan: the new element wins only with a strictly larger count. */
  lemma {:induction false} ScanMaxSnoc<T>(prefix: seq<T>, last: T, counts: multiset<T>)
    requires prefix != []
    ensures var k := ScanMaxIndex(prefix, counts);
      ScanMaxIndex(prefix + [last], counts) == if counts[last] > counts[prefix[k]] then |prefix| else k
  {
    assert (prefix + [last])[..|prefix|] == prefix;
  }

  /** One more key for the reduce: the new key wins only with a strictly larger count. */
  lemma {:induction false} ReduceMaxSnoc<T>(keys: seq<T>, last: T, counts: multiset<T>, init: T)
    ensures var best := ReduceMax(keys, counts, init);
      ReduceMax(keys + [last], counts, init) == if counts[last] > counts[best] then last else best
  {
    assert (keys + [last])[..|keys|] == keys;
  }

  lemma {:induction false} ReduceMaxIsScanMax<T(!new)>(arr: seq<T>, counts: multiset<T>)
    requires arr != []
    ensures ReduceMax(FirstOccurrences(arr), counts, arr[0]) == arr[ScanMaxIndex(arr, counts)]
  {
    if |arr| == 1 {
      assert arr == [] + [arr[0]];
      FirstOccurrencesSnoc([], arr[0]);
    } else {
      var prefix := arr[..|arr| - 1];
      var last := arr[|arr| - 1];
      assert arr == prefix + [last];
      assert prefix[0] == arr[0];
      ReduceMaxIsScanMax(prefix, counts);
      FirstOccurrencesSnoc(prefix, last);
      ScanMaxSnoc(prefix, last, counts);
      var k := ScanMaxIndex(prefix, counts);
      if last in prefix {
        ScanMaxIsMax(prefix, counts);
        var i :| 0 <= i < |prefix| && prefix[i] == last;
        assert counts[last] <= counts[prefix[k]];
      } else {
        ReduceMaxSnoc(FirstOccurrences(prefix), last, counts, arr[0]);
      }
    }
  }

  /**
   * The chosen element occurs in the array with maximal count, and every
   * element before its first occurrence has a strictly smaller count: ties
   * go to the element that appears first.
   */
  lemma {:induction false} MostCommonIsMostFrequent<T(!new)>(arr: seq<T>)
    requires arr != []
    ensures var r := MostCommonOf(arr).value;
      && (forall i :: 0 <= i < |arr| ==> multiset(arr)[arr[i]] <= multiset(arr)[r])
      && (exists k :: 0 <= k < |arr| && arr[k] == r &&
            forall i :: 0 <= i < k ==> multiset(arr)[arr[i]] < multiset(arr)[r])
  {
    ReduceMaxIsScanMax(arr, multiset(arr));
    ScanMaxIsMax(arr, multiset(arr));
  }

  /** getMostCommon: tallies the elements in a record, then reduces over its entries. */
  method GetMostCommon<T(==, !new)>(arr: seq<T>) returns (r: Option<T>)
    ensures r == MostCommonOf(arr)
  {
    if |arr| == 0 {
      return None;
    }
    var counts, keys := Tally(arr);
    var best := arr[0];
    var j := 0;
    while j < |keys|
      invariant 0 <= j <= |keys|
      invariant best == ReduceMax(keys[..j], multiset(arr), arr[0])
      invariant best in counts
    {
      assert keys[..j + 1][..j] == keys[..j];
      if counts[keys[j]] > counts[best] {
        best := keys[j];
      }
      j := j + 1;
    }
    assert keys[..|keys|] == keys;
    return Some(best);
  }

  // ----------------------------------------------------------- hour histogram

  /** The local hour of each event, as `getHours` reads it. */
  function Hours(events: seq<BA.DrivingEvent>): (h: seq<int>)
    ensures |h| == |events|
    ensures forall i :: 0 <= i < |events| ==> h[i] == events[i].timestamp.hour as int
  {
    seq(|events|, i requires 0 <= i < |events| => events[i].timestamp.hour as int)
  }

  /**
   * The riskiest-hour reduce over the first n hours: the record lists hours in
   * ascending order, the choice starts at hour 0 and a strictly larger count
   * replaces it (an hour without events counts 0).
   */
  function RiskiestUpTo(counts: multiset<int>, n: nat): (best: int)
    requires n <= 24
    ensures 0 <= best < 24 && (n > 0 ==> best < n)
  {
    if n == 0 then 0
    else
      var best := RiskiestUpTo(counts, n - 1);
      if counts[n - 1] > counts[best] then n - 1 else best
  }

  /**
   * The safest-hour reduce over the first n hours: only hours with events are
   * entries, the choice starts at hour 0 (reading as Infinity while hour 0
   * has no events) and a strictly smaller count replaces it.
   */
  function SafestUpTo(counts: multiset<int>, n: nat): (best: int)
    requires n <= 24
    ensures 0 <= best < 24 && (n > 0 ==> best < n)
  {
    if n == 0 then 0
    else
      var best := SafestUpTo(counts, n - 1);
      if counts[n - 1] > 0 && (counts[best] == 0 || counts[n - 1] < counts[best]) then n - 1 else best
  }

  /** An hour of the day; `RiskiestHourIsBusiest` shows it has the most events. */
  function RiskiestHour(events: seq<BA.DrivingEvent>): (h: int)
    ensures 0 <= h < 24
  {
    RiskiestUpTo(multiset(Hours(events)), 24)
  }

  /** An hour of the day; `SafestHourIsQuietest` shows it has the fewest events. */
  function SafestHour(events: seq<BA.DrivingEvent>): (h: int)
    ensures 0 <= h < 24
  {
    SafestUpTo(multiset(Hours(events)), 24)
  }

  lemma {:induction false} RiskiestUpToIsMax(counts: multiset<int>, n: nat)
    requires n <= 24
    ensures forall h :: 0 <= h < n ==> counts[h] <= counts[RiskiestUpTo(counts, n)]
    ensures forall h :: 0 <= h < RiskiestUpTo(counts, n) ==> counts[h] < counts[RiskiestUpTo(counts, n)]
  {
    if n > 0 {
      RiskiestUpToIsMax(counts, n - 1);
    }
  }

  lemma {:induction false} SafestUpToIsMin(counts: multiset<int>, n: nat)
    requires n <= 24
    ensures var s := SafestUpTo(counts, n);
      && ((exists h :: 0 <= h < n && counts[h] > 0) ==> counts[s] > 0)
      && ((forall h :: 0 <= h < n ==> counts[h] == 0) ==> s == 0)
      && (forall h :: 0 <= h < n && counts[h] > 0 ==> counts[s] <= counts[h])
      && (forall h :: 0 <= h < s && counts[h] > 0 ==> counts[s] < counts[h])
  {
    if n > 0 {
      SafestUpToIsMin(counts, n - 1);
      var s := SafestUpTo(counts, n);
      if exists h :: 0 <= h < n && counts[h] > 0 {
        var h :| 0 <= h < n && counts[h] > 0;
        if h < n - 1 {
          assert exists h' :: 0 <= h' < n - 1 && counts[h'] > 0;
        }
      }
    }
  }

  /**
   * The riskiest hour has the largest number of events, the earliest such
   * hour winning; without events it is hour 0.
   */
  lemma {:induction false} RiskiestHourIsBusiest(events: seq<BA.DrivingEvent>)
    ensures var r := RiskiestHour(events); var c := multiset(Hours(events));
      && 0 <= r < 24
      && (forall h :: 0 <= h < 24 ==> c[h] <= c[r])
      && (forall h :: 0 <= h < r ==> c[h] < c[r])
      && (events == [] ==> r == 0)
  {
    var c := multiset(Hours(events));
    RiskiestUpToIsMax(c, 24);
    if events == [] {
      assert c == multiset{};
      assert RiskiestHour(events) > 0 ==> c[0] < c[RiskiestHour(events)];
    }
  }

  /**
   * With events, the safest hour is an hour that has events, with the
   * fewest of them, the earliest such hour winning; without events it is
   * hour 0.
   */
  lemma {:induction false} SafestHourIsQuietest(events: seq<BA.DrivingEvent>)
    ensures var s := SafestHour(events); var c := multiset(Hours(events));
      && 0 <= s < 24
      && (events != [] ==> c[s] > 0)
      && (forall h :: 0 <= h < 24 && c[h] > 0 ==> c[s] <= c[h])
      && (forall h :: 0 <= h < s && c[h] > 0 ==> c[s] < c[h])
      && (events == [] ==> s == 0)
  {
    var c := multiset(Hours(events));
    SafestUpToIsMin(c, 24);
    if events != [] {
      var h0 := Hours(events)[0];
      assert h0 in Hours(events);
      assert 0 <= h0 < 24 && c[h0] > 0;
    } else {
      assert forall h :: 0 <= h < 24 ==> c[h] == 0;
    }
  }

  /** The safest-hour reduce over the histogram's entries, in ascending hour order. */
  method SafestOf(eventsByHour: map<int, nat>, ghost c: multiset<int>) returns (safest: int)
    requires forall h :: h in eventsByHour <==> c[h] > 0
    requires forall h :: h in eventsByHour ==> eventsByHour[h] == c[h]
    ensures safest == SafestUpTo(c, 24)
  {
    safest := 0;
    for h := 0 to 24
      invariant safest == SafestUpTo(c, h)
    {
      if h in eventsByHour {
        var count := eventsByHour[h];
        if count < (if safest in eventsByHour then eventsByHour[safest] else count + 1) {
          safest := h;
        }
      }
    }
  }

  /** The riskiest-hour reduce over the histogram's entries, in ascending hour order. */
  method RiskiestOf(eventsByHour: map<int, nat>, ghost c: multiset<int>) returns (riskiest: int)
    requires forall h :: h in eventsByHour <==> c[h] > 0
    requires forall h :: h in eventsByHour ==> eventsByHour[h] == c[h]
    ensures riskiest == RiskiestUpTo(c, 24)
  {
    riskiest := 0;
    for h := 0 to 24
      invariant riskiest == RiskiestUpTo(c, h)
    {
      if h in eventsByHour {
        var count := eventsByHour[h];
        if count > (if riskiest in eventsByHour then eventsByHour[riskiest] else 0) {
          riskiest := h;
        }
      }
    }
  }

  /** generateInsights' histogram: events tallied per local hour, then the two reduces over its entries. */
  method HourInsights(events: seq<BA.DrivingEvent>) returns (safest: int, riskiest: int)
    ensures safest == SafestHour(events) && riskiest == RiskiestHour(events)
  {
    var hours := Hours(events);
    var eventsByHour, _ := Tally(hours);
    safest := SafestOf(eventsByHour, multiset(hours));
    riskiest := RiskiestOf(eventsByHour, multiset(hours));
  }

  // ------------------------------------------------------------------ insights

  function EventTypes(events: seq<BA.DrivingEvent>): (r: seq<BA.EventType>)
    ensures |r| == |events| && forall i :: 0 <= i < |events| ==> r[i] == events[i].eventType
  {
    seq(|events|, i requires 0 <= i < |events| => events[i].eventType)
  }

  /**
   * The times of day are the first hour of the one-hour ranges shown as
   * "h:00 - h+1:00"; `mostCommonRisk` is None where the source shows 'None'.
   */
  datatype ReportInsights = ReportInsights(
    safestTimeOfDay: int,
    riskiestTimeOfDay: int,
    safestDayOfWeek: string,
    mostCommonRisk: Option<BA.EventType>,
    bestPerformingMetric: string,
    needsImprovementMetric: string)

  /** generateInsights; the day of week and the two metrics are fixed labels. */
  function GenerateInsights(events: seq<BA.DrivingEvent>): (r: ReportInsights)
    ensures 0 <= r.safestTimeOfDay < 24 && 0 <= r.riskiestTimeOfDay < 24
    ensures events == [] ==> r.safestTimeOfDay == 0 && r.riskiestTimeOfDay == 0 && r.mostCommonRisk == None
    ensures events != [] ==> r.mostCommonRisk.Some? && r.mostCommonRisk.value in EventTypes(events)
  {
    SafestHourIsQuietest(events);
    RiskiestHourIsBusiest(events);
    ReportInsights(SafestHour(events), RiskiestHour(events), "Tuesday",
                   MostCommonOf(EventTypes(events)), "Smooth Driving", "Speed Control")
  }

  // -------------------------------------------------------------------- report

  datatype ReportParams = ReportParams(
    customerId: string,
    vehicleId: string,
    reportType: ReportType,
    behaviorAnalyses: seq<BA.BehaviorAnalysisResult>,
    accidentPredictions: seq<AP.AccidentPrediction>,
    drivingEvents: seq<BA.DrivingEvent>,
    tripData: seq<Trip>,
    previousPeriodScore: Option<real>)

  datatype SafetyReport = SafetyReport(
    id: string,
    customerId: string,
    vehicleId: string,
    reportType: ReportType,
    periodStart: int,
    periodEnd: int,
    generatedAt: int,
    overallSafetyScore: int,
    scoreChange: real,
    totalDistance: real,
    totalTrips: nat,
    totalDrivingTime: real,
    summary: Summary,
    drivingBehavior: DrivingBehavior,
    riskAnalysis: RiskAnalysis,
    achievements: seq<Achievement>,
    improvementAreas: seq<ImprovementArea>,
    aiRecommendations: seq<AIRecommendation>,
    comparativeAnalysis: ComparativeAnalysis,
    insights: ReportInsights)

  function TripDistance(t: Trip): real
  {
    t.distance
  }

  function TripDuration(t: Trip): real
  {
    t.duration
  }

  /** generateReport, as a function of its inputs, the clock and the report id. */
  function Report(p: ReportParams, now: int, oneMonthEarlier: int, id: string): (r: SafetyReport)
    ensures r.id == id && r.customerId == p.customerId && r.vehicleId == p.vehicleId
    ensures r.generatedAt == now && r.periodEnd == now && r.totalTrips == |p.tripData|
    ensures |r.achievements| <= 4 && |r.improvementAreas| <= 3 && |r.aiRecommendations| <= 3
  {
    var period := CalculatePeriod(p.reportType, now, oneMonthEarlier);
    var overall := OverallSafetyScore(p.behaviorAnalyses);
    var behavior := AggregateDrivingBehavior(p.behaviorAnalyses, p.drivingEvents);
    var risk := AnalyzeRisks(p.tripData, p.accidentPredictions);
    var areas := ImprovementAreas(behavior, risk);
    SafetyReport(
      id, p.customerId, p.vehicleId, p.reportType, period.periodStart, period.periodEnd, now,
      overall,
      ScoreChange(overall, p.previousPeriodScore),
      SumOf(p.tripData, TripDistance),
      |p.tripData|,
      SumOf(p.tripData, TripDuration),
      GenerateSummary(p.drivingEvents, p.accidentPredictions),
      behavior,
      risk,
      Achievements(overall, behavior, |p.tripData|, p.reportType, now),
      areas,
      AIRecommendations(areas, behavior, risk),
      ComparativeAnalysisOf(overall, PreviousOrCurrent(overall, p.previousPeriodScore), behavior),
      GenerateInsights(p.drivingEvents))
  }

  /** generateReport: the helpers that push or tally run as methods. */
  method GenerateReport(p: ReportParams, now: int, oneMonthEarlier: int, id: string) returns (r: SafetyReport)
    ensures r == Report(p, now, oneMonthEarlier, id)
  {
    var period := CalculatePeriod(p.reportType, now, oneMonthEarlier);
    var overall := OverallSafetyScore(p.behaviorAnalyses);
    var behavior := AggregateDrivingBehavior(p.behaviorAnalyses, p.drivingEvents);
    var risk := AnalyzeRisks(p.tripData, p.accidentPredictions);
    var achievements := IdentifyAchievements(overall, behavior, |p.tripData|, p.reportType, now);
    var areas := IdentifyImprovementAreas(behavior, risk);
    var recommendations := GenerateAIRecommendations(areas, behavior, risk);
    var safest, riskiest := HourInsights(p.drivingEvents);
    var mostCommonRisk := GetMostCommon(EventTypes(p.drivingEvents));
    var insights := ReportInsights(safest, riskiest, "Tuesday", mostCommonRisk, "Smooth Driving", "Speed Control");
    r := SafetyReport(
      id, p.customerId, p.vehicleId, p.reportType, period.periodStart, period.periodEnd, now,
      overall,
      ScoreChange(overall, p.previousPeriodScore),
      SumOf(p.tripData, TripDistance),
      |p.tripData|,
      SumOf(p.tripData, TripDuration),
      GenerateSummary(p.drivingEvents, p.accidentPredictions),
      behavior,
      risk,
      achievements,
      areas,
      recommendations,
      ComparativeAnalysisOf(overall, PreviousOrCurrent(overall, p.previousPeriodScore), behavior),
      insights);
  }

  /**
   * The score change and the comparative score improvement always agree:
   * both are overall - previous when a non-zero previous score is given, and
   * both are 0 otherwise.
   */
  lemma {:induction false} ScoreChangeMatchesImprovement(p: ReportParams, now: int, oneMonthEarlier: int, id: string)
    ensures var r := Report(p, now, oneMonthEarlier, id);
      r.scoreChange == r.comparativeAnalysis.scoreImprovement
  {
  }

  /** The headline scores of a report. */
  lemma {:induction false} ReportScores(p: ReportParams, now: int, oneMonthEarlier: int, id: string)
    requires forall i :: 0 <= i < |p.behaviorAnalyses| ==> 0.0 <= p.behaviorAnalyses[i].overallScore <= 100.0
    ensures var r := Report(p, now, oneMonthEarlier, id);
      && 0 <= r.overallSafetyScore <= 100
      && (p.behaviorAnalyses == [] ==> r.overallSafetyScore == 100)
      && (r.comparativeAnalysis.peerComparison.percentile == 95 <==> r.overallSafetyScore >= 90)
      && r.periodEnd == r.generatedAt == now
  {
    OverallSafetyScoreBounds(p.behaviorAnalyses);
    var r := Report(p, now, oneMonthEarlier, id);
    var overall := OverallSafetyScore(p.behaviorAnalyses);
    assert r.overallSafetyScore == overall;
    assert r.periodEnd == CalculatePeriod(p.reportType, now, oneMonthEarlier).periodEnd;
  }

  /** The counts of a report: trips, incidents, and per-type counts that never exceed the events. */
  lemma {:induction false} ReportCounts(p: ReportParams, now: int, oneMonthEarlier: int, id: string)
    ensures var r := Report(p, now, oneMonthEarlier, id);
      && r.totalTrips == |p.tripData|
      && r.summary.riskIncidentsCount == |p.drivingEvents|
      && r.summary.criticalEventsCount <= |p.drivingEvents|
      && r.drivingBehavior.overspeedingIncidents + r.drivingBehavior.harshBrakingCount
         + r.drivingBehavior.rapidAccelerationCount + r.drivingBehavior.sharpTurnCount
         + r.drivingBehavior.fatigueDetections + r.drivingBehavior.distractedDrivingEvents <= |p.drivingEvents|
      && (p.drivingEvents == [] ==> r.summary.safeDrivingPercentage == 100)
      && r.riskAnalysis.highRiskTrips <= |p.tripData|
  {
  }

  /** The rule-based parts of a report. */
  lemma {:induction false} ReportRules(p: ReportParams, now: int, oneMonthEarlier: int, id: string)
    ensures var r := Report(p, now, oneMonthEarlier, id);
      && |r.achievements| <= 4
      && |r.improvementAreas| <= 3
      && (SpeedControl in Categories(r.aiRecommendations) <==> r.drivingBehavior.overspeedingIncidents > 5)
      && (RiskManagement in Categories(r.aiRecommendations) <==> r.riskAnalysis.riskTrend == Worsening)
  {
    var r := Report(p, now, oneMonthEarlier, id);
    AchievementsRules(r.overallSafetyScore, r.drivingBehavior, |p.tripData|, p.reportType, now);
    ImprovementAreasRules(r.drivingBehavior, r.riskAnalysis);
    AIRecommendationsRules(r.drivingBehavior, r.riskAnalysis);
  }
}
