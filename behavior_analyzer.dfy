/**
 * The driver-behaviour analyser (lib/ai/driver-behavior-analyzer.ts).
 *
 * `AnalyzeBehavior` walks consecutive telemetry pairs, classifies the four
 * pairwise events (overspeeding, harsh braking, rapid acceleration, sharp
 * turn), runs the two sliding-window detectors (fatigue, distraction) and
 * folds the counts into the aggressive, smooth, attention and overall
 * scores, a four-level risk class and a fixed-order list of tips.
 *
 * `Analysis` is the specification of that method as one expression; the
 * lemmas below state what the source promises about it.
 */
module BehaviorAnalyzer {
  import opened Numeric
  import opened Folds

  type Hour = h: int | 0 <= h < 24

  /** A JS `Date`: epoch milliseconds plus the local hour `getHours()` gives for it. */
  datatype Timestamp = Timestamp(millis: int, hour: Hour)

  datatype TelemetryData = TelemetryData(
    timestamp: Timestamp,
    speed: real,
    accelerationX: real,
    accelerationY: real,
    accelerationZ: real,
    latitude: real,
    longitude: real,
    rpm: Option<real>,
    throttlePosition: Option<real>,
    brakePressure: Option<real>,
    steeringAngle: Option<real>)

  datatype EventType =
    | HarshBraking | RapidAcceleration | SharpTurn | Overspeeding
    | PhoneUsage | Fatigue | DistractedDriving

  datatype Severity = Low | Medium | High | Critical

  datatype Location = Location(lat: real, lng: real)

  /**
   * The `explanation` text of an event, kept as its template and the values
   * interpolated into it (`toFixed` formatting is not modelled).
   */
  datatype Explanation =
    | SpeedOverLimit(speed: real, limit: real, excess: real)
    | HarshBrakingOf(magnitude: real)
    | RapidAccelerationOf(acceleration: real)
    | SharpTurnAt(speed: real, angle: real)
    | OtherExplanation(text: string)

  /** `aiReasoning`: the attribution record each detector attaches. */
  datatype Reasoning =
    | SpeedReasoning(speedLimit: real, actualSpeed: real, excess: real)
    | BrakingReasoning(deceleration: real, magnitude: real, previousSpeed: real, currentSpeed: real)
    | AccelerationReasoning(acceleration: real, previousSpeed: real, currentSpeed: real)
    | TurnReasoning(steeringAngle: real, speed: real)
    | OtherReasoning(otherFactors: seq<string>)
  {
    /** The list under `aiReasoning.factors`. */
    function Factors(): seq<string>
    {
      match this
      case SpeedReasoning(_, _, _) => ["speed_violation", "safety_risk"]
      case BrakingReasoning(_, _, _, _) => ["sudden_stop", "passenger_safety", "collision_risk"]
      case AccelerationReasoning(_, _, _) => ["aggressive_driving", "fuel_efficiency", "tire_wear"]
      case TurnReasoning(_, _) => ["rollover_risk", "loss_of_control", "passenger_safety"]
      case OtherReasoning(fs) => fs
    }
  }

  datatype DrivingEvent = DrivingEvent(
    eventType: EventType,
    severity: Severity,
    timestamp: Timestamp,
    location: Location,
    speedAtEvent: real,
    accelerationMagnitude: Option<real>,
    explanation: Explanation,
    aiReasoning: Reasoning)

  datatype RiskLevel = Safe | Moderate | Risky | Dangerous

  datatype Insights = Insights(
    overspeedingIncidents: nat,
    harshBrakingCount: nat,
    rapidAccelerationCount: nat,
    sharpTurnCount: nat,
    phoneUsageDetected: bool,
    fatigueDetected: bool,
    distractedDrivingEvents: nat,
    aggressiveDrivingScore: real,
    smoothDrivingScore: real,
    attentionScore: real)

  /** The seven tips `generateRecommendations` may give, one per rule. */
  datatype Tip =
    | ReduceSpeed | KeepFollowingDistance | GradualAcceleration | SlowBeforeTurns
    | TakeBreaks | MinimizeDistractions | DefensiveDrivingTraining

  datatype BehaviorAnalysisResult = BehaviorAnalysisResult(
    overallScore: real,
    riskLevel: RiskLevel,
    events: seq<DrivingEvent>,
    insights: Insights,
    recommendations: seq<Tip>)

  const SpeedLimitUrban: real := 60.0
  const SpeedLimitHighway: real := 100.0
  const HarshBrakingThreshold: real := -8.0
  const RapidAccelerationThreshold: real := 4.0
  const SharpTurnThreshold: real := 30.0

  function LocationOf(d: TelemetryData): Location
  {
    Location(d.latitude, d.longitude)
  }

  /** `steeringAngle || 0` */
  function SteeringOrZero(d: TelemetryData): real
  {
    match d.steeringAngle
    case Some(a) => a
    case None => 0.0
  }

  function AsSeq<T>(o: Option<T>): (s: seq<T>)
    ensures |s| <= 1
  {
    match o
    case Some(x) => [x]
    case None => []
  }

  // ---------------------------------------------------------------- detectors

  /** The limit is picked from the observed speed itself, not from the road. */
  function SpeedLimit(speed: real): real
  {
    if speed > 80.0 then SpeedLimitHighway else SpeedLimitUrban
  }

  /** determineSpeedSeverity */
  function SpeedSeverity(excess: real): (s: Severity)
    ensures s == Critical <==> excess > 40.0
    ensures s == High <==> 25.0 < excess <= 40.0
    ensures s == Low <==> excess <= 15.0
  {
    if excess > 40.0 then Critical
    else if excess > 25.0 then High
    else if excess > 15.0 then Medium
    else Low
  }

  /** detectOverspeeding */
  function DetectOverspeeding(d: TelemetryData): (r: Option<DrivingEvent>)
    ensures r.Some? ==> r.value.eventType == Overspeeding
  {
    var limit := SpeedLimit(d.speed);
    var excess := d.speed - limit;
    if excess > 0.0 then
      Some(DrivingEvent(Overspeeding, SpeedSeverity(excess), d.timestamp, LocationOf(d), d.speed, None,
        SpeedOverLimit(d.speed, limit, excess), SpeedReasoning(limit, d.speed, excess)))
    else None
  }

  /**
   * The speed change between two samples as both detectors compute it,
   * `(current.speed - previous.speed) / seconds * 3.6`, or None when the two
   * timestamps are equal (the detectors then skip the pair).
   */
  function ChangeRate(current: TelemetryData, previous: TelemetryData): (r: Option<real>)
    ensures r.None? <==> current.timestamp.millis == previous.timestamp.millis
    ensures r.Some? ==>
      r.value * ((current.timestamp.millis - previous.timestamp.millis) as real / 1000.0)
        == (current.speed - previous.speed) * 3.6
  {
    var seconds := (current.timestamp.millis - previous.timestamp.millis) as real / 1000.0;
    if seconds == 0.0 then None
    else Some((current.speed - previous.speed) / seconds * 3.6)
  }

  /** Harsh braking is never low; beyond 12 km/h per second it is critical. */
  function BrakingSeverity(magnitude: real): (s: Severity)
    ensures s != Low
    ensures s == Critical <==> magnitude > 12.0
    ensures s == Medium <==> magnitude <= 10.0
  {
    if magnitude > 12.0 then Critical else if magnitude > 10.0 then High else Medium
  }

  /** detectHarshBraking */
  function DetectHarshBraking(current: TelemetryData, previous: TelemetryData): (r: Option<DrivingEvent>)
    ensures r.Some? ==> r.value.eventType == HarshBraking
  {
    match ChangeRate(current, previous)
    case None => None
    case Some(rate) =>
      if rate < HarshBrakingThreshold then
        var magnitude := Abs(rate);
        Some(DrivingEvent(HarshBraking, BrakingSeverity(magnitude), current.timestamp, LocationOf(current),
          current.speed, Some(rate),
          HarshBrakingOf(magnitude), BrakingReasoning(rate, magnitude, previous.speed, current.speed)))
      else None
  }

  /** Rapid acceleration is never critical; beyond 8 km/h per second it is high. */
  function AccelerationSeverity(rate: real): (s: Severity)
    ensures s != Critical
    ensures s == High <==> rate > 8.0
    ensures s == Low <==> rate <= 6.0
  {
    if rate > 8.0 then High else if rate > 6.0 then Medium else Low
  }

  /** detectRapidAcceleration */
  function DetectRapidAcceleration(current: TelemetryData, previous: TelemetryData): (r: Option<DrivingEvent>)
    ensures r.Some? ==> r.value.eventType == RapidAcceleration
  {
    match ChangeRate(current, previous)
    case None => None
    case Some(rate) =>
      if rate > RapidAccelerationThreshold then
        Some(DrivingEvent(RapidAcceleration, AccelerationSeverity(rate), current.timestamp, LocationOf(current),
          current.speed, Some(rate),
          RapidAccelerationOf(rate), AccelerationReasoning(rate, previous.speed, current.speed)))
      else None
  }

  /** detectSharpTurn: a missing or zero steering angle is falsy and skips the sample. */
  function DetectSharpTurn(d: TelemetryData): (r: Option<DrivingEvent>)
    ensures r.Some? ==> r.value.eventType == SharpTurn
  {
    if d.steeringAngle.None? || d.steeringAngle.value == 0.0 then None
    else
      var angle := Abs(d.steeringAngle.value);
      if angle > SharpTurnThreshold && d.speed > 40.0 then
        Some(DrivingEvent(SharpTurn, if angle > 45.0 then High else Medium, d.timestamp, LocationOf(d),
          d.speed, None,
          SharpTurnAt(d.speed, angle), TurnReasoning(d.steeringAngle.value, d.speed)))
      else None
  }

  /** The events one loop iteration pushes, in the order the source pushes them. */
  function Pushes(overspeeding: Option<DrivingEvent>, braking: Option<DrivingEvent>,
                  acceleration: Option<DrivingEvent>, turn: Option<DrivingEvent>): seq<DrivingEvent>
  {
    AsSeq(overspeeding) + AsSeq(braking) + AsSeq(acceleration) + AsSeq(turn)
  }

  /** The events the pair (previous, current) yields. */
  function PairEvents(previous: TelemetryData, current: TelemetryData): seq<DrivingEvent>
  {
    Pushes(DetectOverspeeding(current), DetectHarshBraking(current, previous),
           DetectRapidAcceleration(current, previous), DetectSharpTurn(current))
  }

  /** The events of the pairs (data[i-1], data[i]) for 1 <= i < k, in loop order. */
  function DetectedEvents(data: seq<TelemetryData>, k: nat): seq<DrivingEvent>
    requires k <= |data|
  {
    if k <= 1 then [] else DetectedEvents(data, k - 1) + PairEvents(data[k - 2], data[k - 1])
  }

  /** The number of events of type t. */
  function CountType(events: seq<DrivingEvent>, t: EventType): (n: nat)
    ensures n <= |events|
  {
    if events == [] then 0
    else CountType(events[..|events| - 1], t) + (if events[|events| - 1].eventType == t then 1 else 0)
  }

  /** No event of type t is counted exactly when none occurs. */
  lemma {:induction false} CountTypeZero(events: seq<DrivingEvent>, t: EventType)
    ensures CountType(events, t) == 0 <==> forall i :: 0 <= i < |events| ==> events[i].eventType != t
  {
    if events != [] {
      var prefix := events[..|events| - 1];
      CountTypeZero(prefix, t);
      assert forall i :: 0 <= i < |prefix| ==> prefix[i] == events[i];
    }
  }

  predicate IsPairwiseType(t: EventType)
  {
    t == Overspeeding || t == HarshBraking || t == RapidAcceleration || t == SharpTurn
  }

  // ------------------------------------------------------ detector properties

  /**
   * Overspeeding fires exactly for speeds in (60, 80] and above 100: the
   * band (80, 100] is measured against the highway limit and never fires.
   * At or below 80 km/h the excess is at most 20, so the severity is at
   * most Medium.
   */
  lemma {:induction false} OverspeedingFiresIff(d: TelemetryData)
    ensures DetectOverspeeding(d).Some? <==> (60.0 < d.speed <= 80.0 || d.speed > 100.0)
    ensures DetectOverspeeding(d).Some? ==>
      && DetectOverspeeding(d).value.eventType == Overspeeding
      && DetectOverspeeding(d).value.speedAtEvent == d.speed
      && DetectOverspeeding(d).value.timestamp == d.timestamp
    ensures DetectOverspeeding(d).Some? && d.speed <= 80.0 ==>
      DetectOverspeeding(d).value.severity in {Low, Medium}
    ensures DetectOverspeeding(d).Some? ==>
      (DetectOverspeeding(d).value.severity == Critical <==> d.speed > 140.0)
  {
  }

  /** A larger excess never gets a milder severity. */
  lemma {:induction false} SpeedSeverityMonotone(a: real, b: real)
    requires a <= b
    ensures SeverityRank(SpeedSeverity(a)) <= SeverityRank(SpeedSeverity(b))
  {
  }

  function SeverityRank(s: Severity): nat
  {
    match s
    case Low => 0
    case Medium => 1
    case High => 2
    case Critical => 3
  }

  /**
   * Harsh braking is skipped on equal timestamps, otherwise fires exactly
   * when the rate is below -8, and is never Low.
   */
  lemma {:induction false} HarshBrakingFiresIff(current: TelemetryData, previous: TelemetryData)
    ensures current.timestamp.millis == previous.timestamp.millis ==> DetectHarshBraking(current, previous).None?
    ensures current.timestamp.millis != previous.timestamp.millis ==>
      var rate := (current.speed - previous.speed) / ((current.timestamp.millis - previous.timestamp.millis) as real / 1000.0) * 3.6;
      (DetectHarshBraking(current, previous).Some? <==> rate < -8.0)
    ensures DetectHarshBraking(current, previous).Some? ==>
      var e := DetectHarshBraking(current, previous).value;
      e.eventType == HarshBraking && e.severity != Low
      && (e.severity == Critical <==> e.accelerationMagnitude.value < -12.0)
  {
  }

  /** Rapid acceleration: same skip, fires exactly when the rate is above 4. */
  lemma {:induction false} RapidAccelerationFiresIff(current: TelemetryData, previous: TelemetryData)
    ensures current.timestamp.millis == previous.timestamp.millis ==> DetectRapidAcceleration(current, previous).None?
    ensures current.timestamp.millis != previous.timestamp.millis ==>
      var rate := (current.speed - previous.speed) / ((current.timestamp.millis - previous.timestamp.millis) as real / 1000.0) * 3.6;
      (DetectRapidAcceleration(current, previous).Some? <==> rate > 4.0)
    ensures DetectRapidAcceleration(current, previous).Some? ==>
      var e := DetectRapidAcceleration(current, previous).value;
      e.eventType == RapidAcceleration && e.severity != Critical
      && (e.severity == High <==> e.accelerationMagnitude.value > 8.0)
  {
  }

  /** One pair never yields both a braking and an acceleration event. */
  lemma {:induction false} BrakingAndAccelerationExclusive(current: TelemetryData, previous: TelemetryData)
    ensures !(DetectHarshBraking(current, previous).Some? && DetectRapidAcceleration(current, previous).Some?)
  {
  }

  /** Sharp turn needs a present, non-zero angle above 30 degrees at more than 40 km/h. */
  lemma {:induction false} SharpTurnFiresIff(d: TelemetryData)
    ensures DetectSharpTurn(d).Some? <==>
      d.steeringAngle.Some? && (d.steeringAngle.value > 30.0 || d.steeringAngle.value < -30.0) && d.speed > 40.0
    ensures DetectSharpTurn(d).Some? ==>
      DetectSharpTurn(d).value.eventType == SharpTurn
      && (DetectSharpTurn(d).value.severity == High <==> Abs(d.steeringAngle.value) > 45.0)
      && DetectSharpTurn(d).value.severity in {Medium, High}
  {
  }

  /** One pair yields at most three events, each of its own pairwise type. */
  lemma {:induction false} PairEventsShape(previous: TelemetryData, current: TelemetryData)
    ensures |PairEvents(previous, current)| <= 3
    ensures forall e :: e in PairEvents(previous, current) ==> IsPairwiseType(e.eventType)
  {
    BrakingAndAccelerationExclusive(current, previous);
  }

  // ------------------------------------------------------- sliding windows

  function Speeds(s: seq<TelemetryData>): (r: seq<real>)
    ensures |r| == |s|
    ensures forall i :: 0 <= i < |s| ==> r[i] == s[i].speed
  {
    seq(|s|, i requires 0 <= i < |s| => s[i].speed)
  }

  function Steerings(s: seq<TelemetryData>): (r: seq<real>)
    ensures |r| == |s|
    ensures forall i :: 0 <= i < |s| ==> r[i] == SteeringOrZero(s[i])
  {
    seq(|s|, i requires 0 <= i < |s| => SteeringOrZero(s[i]))
  }

  /** Fatigue window at i: 20 samples data[i-10..i+10] whose speed variance exceeds 100. */
  predicate InconsistentSpeedAt(data: seq<TelemetryData>, i: int)
    requires 10 <= i && i + 10 <= |data|
  {
    Variance(Speeds(data[i - 10..i + 10])) > 100.0
  }

  /** Micro-sleep at i: speed fell by more than 10 within 5 samples while steering more than 5 degrees. */
  predicate MicroSleepAt(data: seq<TelemetryData>, i: int)
    requires 10 <= i && i + 10 <= |data|
  {
    data[i].speed < data[i - 5].speed - 10.0 && Abs(SteeringOrZero(data[i])) > 5.0
  }

  /** The number of positions 10 <= i < hi with an inconsistent-speed window. */
  function InconsistentSpeedCount(data: seq<TelemetryData>, hi: int): nat
    requires 10 <= hi && hi + 10 <= |data|
    decreases hi
  {
    if hi == 10 then 0
    else InconsistentSpeedCount(data, hi - 1) + (if InconsistentSpeedAt(data, hi - 1) then 1 else 0)
  }

  /** The number of positions 10 <= i < hi with a micro-sleep indicator. */
  function MicroSleepCount(data: seq<TelemetryData>, hi: int): nat
    requires 10 <= hi && hi + 10 <= |data|
    decreases hi
  {
    if hi == 10 then 0
    else MicroSleepCount(data, hi - 1) + (if MicroSleepAt(data, hi - 1) then 1 else 0)
  }

  /** detectFatigue, as a specification: never below 100 samples. */
  predicate FatigueDetected(data: seq<TelemetryData>)
  {
    |data| >= 100
    && (InconsistentSpeedCount(data, |data| - 10) > 20 || MicroSleepCount(data, |data| - 10) > 5)
  }

  /** Distraction window at i: data[i-5..i+5] with steering variance > 50 and speed variance > 30. */
  predicate DistractedAt(data: seq<TelemetryData>, i: int)
    requires 5 <= i && i + 5 <= |data|
  {
    Variance(Steerings(data[i - 5..i + 5])) > 50.0 && Variance(Speeds(data[i - 5..i + 5])) > 30.0
  }

  /** The number of positions 5 <= i < hi with a distracted window. */
  function DistractedCount(data: seq<TelemetryData>, hi: int): nat
    requires 5 <= hi && hi + 5 <= |data|
    decreases hi
  {
    if hi == 5 then 0
    else DistractedCount(data, hi - 1) + (if DistractedAt(data, hi - 1) then 1 else 0)
  }

  /** detectDistractedDriving, as a specification: floor(hits / 10). */
  function DistractedEvents(data: seq<TelemetryData>): nat
  {
    if |data| < 10 then 0 else DistractedCount(data, |data| - 5) / 10
  }

  lemma {:induction false} DistractedCountBound(data: seq<TelemetryData>, hi: int)
    requires 5 <= hi && hi + 5 <= |data|
    ensures DistractedCount(data, hi) <= hi - 5
  {
    if hi > 5 {
      DistractedCountBound(data, hi - 1);
    }
  }

  /**
   * With 10 or fewer samples the window range 5..n-5 is empty and no
   * distraction is reported; otherwise at most a tenth of the windows count.
   */
  lemma {:induction false} DistractionBounds(data: seq<TelemetryData>)
    ensures |data| <= 10 ==> DistractedEvents(data) == 0
    ensures DistractedEvents(data) <= (if |data| < 10 then 0 else (|data| - 10) / 10)
  {
    if |data| >= 10 {
      DistractedCountBound(data, |data| - 5);
    }
  }

  /** detectFatigue */
  method DetectFatigue(data: seq<TelemetryData>) returns (detected: bool)
    ensures detected == FatigueDetected(data)
    ensures |data| < 100 ==> !detected
  {
    if |data| < 100 {
      return false;
    }
    var inconsistentSpeedChanges := 0;
    var microSleepIndicators := 0;
    var i := 10;
    while i < |data| - 10
      invariant 10 <= i <= |data| - 10
      invariant inconsistentSpeedChanges == InconsistentSpeedCount(data, i)
      invariant microSleepIndicators == MicroSleepCount(data, i)
    {
      var window := data[i - 10..i + 10];
      if Variance(Speeds(window)) > 100.0 {
        inconsistentSpeedChanges := inconsistentSpeedChanges + 1;
      }
      if window[10].speed < window[5].speed - 10.0 && Abs(SteeringOrZero(window[10])) > 5.0 {
        microSleepIndicators := microSleepIndicators + 1;
      }
      i := i + 1;
    }
    detected := inconsistentSpeedChanges > 20 || microSleepIndicators > 5;
  }

  /** detectDistractedDriving */
  method DetectDistractedDriving(data: seq<TelemetryData>) returns (events: nat)
    ensures events == DistractedEvents(data)
  {
    var distracted := 0;
    var i := 5;
    while i < |data| - 5
      invariant 5 <= i
      invariant |data| >= 10 ==> i <= |data| - 5 && distracted == DistractedCount(data, i)
      invariant |data| < 10 ==> i == 5 && distracted == 0
    {
      var window := data[i - 5..i + 5];
      var steeringVariance := Variance(Steerings(window));
      var speedVariance := Variance(Speeds(window));
      if steeringVariance > 50.0 && speedVariance > 30.0 {
        distracted := distracted + 1;
      }
      i := i + 1;
    }
    events := distracted / 10;
  }

  // ---------------------------------------------------------------- scores

  /** calculateAggressiveDrivingScore */
  function AggressiveScore(overspeeding: nat, harshBraking: nat, rapidAcceleration: nat, sharpTurn: nat): (r: real)
    ensures 0.0 <= r <= 100.0
  {
    var weighted := overspeeding as real * 2.0 + harshBraking as real * 3.0
                    + rapidAcceleration as real * 2.0 + sharpTurn as real * 2.5;
    Min(100.0, weighted * 5.0)
  }

  function EventPenalty(eventCount: nat): (r: real)
    ensures 0.0 <= r <= 30.0
  {
    Min(30.0, eventCount as real * 2.0)
  }

  /** calculateOverallScore */
  function OverallScore(aggressive: real, smooth: real, attention: real, eventCount: nat): (r: real)
    ensures 0.0 <= r <= 100.0
  {
    var base := smooth * 0.4 + attention * 0.3 + (100.0 - aggressive) * 0.3;
    Max(0.0, Min(100.0, base - EventPenalty(eventCount)))
  }

  /** determineRiskLevel */
  function DetermineRiskLevel(score: real, events: seq<DrivingEvent>): (l: RiskLevel)
    ensures score < 40.0 ==> l == Dangerous
    ensures l == Risky ==> 40.0 <= score < 60.0
    ensures l == Moderate ==> 60.0 <= score < 80.0
    ensures l == Safe ==> score >= 80.0
  {
    var criticalEvents := CountWhere(events, (e: DrivingEvent) => e.severity == Critical);
    if criticalEvents > 0 || score < 40.0 then Dangerous
    else if score < 60.0 then Risky
    else if score < 80.0 then Moderate
    else Safe
  }

  /** Dangerous exactly when some event is critical or the score is below 40. */
  lemma {:induction false} DangerousIff(score: real, events: seq<DrivingEvent>)
    ensures DetermineRiskLevel(score, events) == Dangerous <==>
      (exists i :: 0 <= i < |events| && events[i].severity == Critical) || score < 40.0
    ensures DetermineRiskLevel(score, events) == Safe <==>
      (forall i :: 0 <= i < |events| ==> events[i].severity != Critical) && score >= 80.0
  {
    CountWhereZero(events, (e: DrivingEvent) => e.severity == Critical);
  }

  // ------------------------------------------------------------------ tips

  function TipRank(t: Tip): nat
  {
    match t
    case ReduceSpeed => 0
    case KeepFollowingDistance => 1
    case GradualAcceleration => 2
    case SlowBeforeTurns => 3
    case TakeBreaks => 4
    case MinimizeDistractions => 5
    case DefensiveDrivingTraining => 6
  }

  /** The tip of the rule at position k of the fixed rule order. */
  function RuleTip(k: nat): (t: Tip)
    requires k < 7
    ensures TipRank(t) == k
  {
    [ReduceSpeed, KeepFollowingDistance, GradualAcceleration, SlowBeforeTurns,
     TakeBreaks, MinimizeDistractions, DefensiveDrivingTraining][k]
  }

  /** The parameters object `generateRecommendations` receives. */
  datatype TipInputs = TipInputs(
    overspeeding: nat, harshBraking: nat, rapidAcceleration: nat, sharpTurn: nat,
    fatigue: bool, distracted: nat, risk: RiskLevel)

  /** The rule of `generateRecommendations` that gives tip t. */
  predicate TipApplies(t: Tip, p: TipInputs)
  {
    match t
    case ReduceSpeed => p.overspeeding > 5
    case KeepFollowingDistance => p.harshBraking > 3
    case GradualAcceleration => p.rapidAcceleration > 3
    case SlowBeforeTurns => p.sharpTurn > 2
    case TakeBreaks => p.fatigue
    case MinimizeDistractions => p.distracted > 2
    case DefensiveDrivingTraining => p.risk == Dangerous || p.risk == Risky
  }

  /** The tips of the rules k, k+1, ..., 6 that hold, in rule order. */
  function TipsFrom(p: TipInputs, k: nat): (r: seq<Tip>)
    requires k <= 7
    ensures forall t :: t in r <==> TipRank(t) >= k && TipApplies(t, p)
    ensures forall i, j :: 0 <= i < j < |r| ==> TipRank(r[i]) < TipRank(r[j])
    ensures |r| <= 7 - k
    decreases 7 - k
  {
    if k == 7 then []
    else
      var rest := TipsFrom(p, k + 1);
      var t := RuleTip(k);
      if TipApplies(t, p) then [t] + rest else rest
  }

  /**
   * generateRecommendations: a tip is present exactly when its rule holds,
   * at most once, and the tips follow the fixed rule order.
   */
  function Recommendations(p: TipInputs): (r: seq<Tip>)
    ensures forall t :: t in r <==> TipApplies(t, p)
    ensures forall i, j :: 0 <= i < j < |r| ==> TipRank(r[i]) < TipRank(r[j])
    ensures |r| <= 7
  {
    TipsFrom(p, 0)
  }

  // -------------------------------------------------------------- analysis

  /** analyzeBehavior, as one expression. */
  function Analysis(data: seq<TelemetryData>): (r: BehaviorAnalysisResult)
    ensures 0.0 <= r.overallScore <= 100.0
    ensures r.riskLevel == Safe ==> r.overallScore >= 80.0
    ensures forall t :: t in r.recommendations <==> TipApplies(t, TipInputsOf(r))
  {
    var events := DetectedEvents(data, |data|);
    var overspeeding := CountType(events, Overspeeding);
    var harshBraking := CountType(events, HarshBraking);
    var rapidAcceleration := CountType(events, RapidAcceleration);
    var sharpTurn := CountType(events, SharpTurn);
    var fatigue := FatigueDetected(data);
    var distracted := DistractedEvents(data);
    var aggressive := AggressiveScore(overspeeding, harshBraking, rapidAcceleration, sharpTurn);
    var smooth := 100.0 - aggressive;
    var attention := if fatigue then 50.0 else 90.0;
    var overall := OverallScore(aggressive, smooth, attention, |events|);
    var risk := DetermineRiskLevel(overall, events);
    BehaviorAnalysisResult(
      overall, risk, events,
      Insights(overspeeding, harshBraking, rapidAcceleration, sharpTurn, false, fatigue, distracted,
               aggressive, smooth, attention),
      Recommendations(TipInputs(overspeeding, harshBraking, rapidAcceleration, sharpTurn, fatigue, distracted, risk)))
  }

  /**
   * The state of the pairwise loop before sample i: the events of the pairs
   * so far and, for each pairwise type, how many of them have that type.
   */
  ghost predicate Scanned(data: seq<TelemetryData>, i: nat, events: seq<DrivingEvent>, overspeedingCount: nat,
                          harshBrakingCount: nat, rapidAccelerationCount: nat, sharpTurnCount: nat)
  {
    && 1 <= i <= |data|
    && events == DetectedEvents(data, i)
    && overspeedingCount == CountType(events, Overspeeding)
    && harshBrakingCount == CountType(events, HarshBraking)
    && rapidAccelerationCount == CountType(events, RapidAcceleration)
    && sharpTurnCount == CountType(events, SharpTurn)
  }

  /**
   * Appending the events of the pair (data[i-1], data[i]) and adding their
   * number of each type to that type's count moves the loop state from i to i + 1.
   */
  lemma {:induction false} ScanStep(data: seq<TelemetryData>, i: nat, events: seq<DrivingEvent>,
                                    overspeedingCount: nat, harshBrakingCount: nat, rapidAccelerationCount: nat,
                                    sharpTurnCount: nat, events': seq<DrivingEvent>, overspeedingCount': nat,
                                    harshBrakingCount': nat, rapidAccelerationCount': nat, sharpTurnCount': nat)
    requires Scanned(data, i, events, overspeedingCount, harshBrakingCount, rapidAccelerationCount, sharpTurnCount)
    requires i < |data|
    requires events' == events + PairEvents(data[i - 1], data[i])
    requires overspeedingCount' == overspeedingCount + CountType(PairEvents(data[i - 1], data[i]), Overspeeding)
    requires harshBrakingCount' == harshBrakingCount + CountType(PairEvents(data[i - 1], data[i]), HarshBraking)
    requires rapidAccelerationCount' ==
      rapidAccelerationCount + CountType(PairEvents(data[i - 1], data[i]), RapidAcceleration)
    requires sharpTurnCount' == sharpTurnCount + CountType(PairEvents(data[i - 1], data[i]), SharpTurn)
    ensures Scanned(data, i + 1, events', overspeedingCount', harshBrakingCount', rapidAccelerationCount', sharpTurnCount')
  {
    var pair := PairEvents(data[i - 1], data[i]);
    assert DetectedEvents(data, i + 1) == events + pair;
    CountTypeAppend(events, pair, Overspeeding);
    CountTypeAppend(events, pair, HarshBraking);
    CountTypeAppend(events, pair, RapidAcceleration);
    CountTypeAppend(events, pair, SharpTurn);
  }

  /** `if (event) { events.push(event); count++ }` */
  method PushIfPresent(events: seq<DrivingEvent>, count: nat, event: Option<DrivingEvent>)
    returns (events': seq<DrivingEvent>, count': nat)
    ensures events' == events + AsSeq(event)
    ensures count' == count + |AsSeq(event)|
  {
    events', count' := events, count;
    if event.Some? {
      events' := events' + [event.value];
      count' := count' + 1;
    }
  }

  /** The body of the pairwise loop: run the four detectors on one pair, push what fires and count it. */
  method ScanPair(previous: TelemetryData, current: TelemetryData, events: seq<DrivingEvent>,
                  overspeedingCount: nat, harshBrakingCount: nat, rapidAccelerationCount: nat, sharpTurnCount: nat)
    returns (events': seq<DrivingEvent>, overspeedingCount': nat, harshBrakingCount': nat,
             rapidAccelerationCount': nat, sharpTurnCount': nat)
    ensures events' == events + PairEvents(previous, current)
    ensures overspeedingCount' == overspeedingCount + CountType(PairEvents(previous, current), Overspeeding)
    ensures harshBrakingCount' == harshBrakingCount + CountType(PairEvents(previous, current), HarshBraking)
    ensures rapidAccelerationCount' == rapidAccelerationCount + CountType(PairEvents(previous, current), RapidAcceleration)
    ensures sharpTurnCount' == sharpTurnCount + CountType(PairEvents(previous, current), SharpTurn)
  {
    var overspeedingEvent := DetectOverspeeding(current);
    events', overspeedingCount' := PushIfPresent(events, overspeedingCount, overspeedingEvent);
    var brakingEvent := DetectHarshBraking(current, previous);
    events', harshBrakingCount' := PushIfPresent(events', harshBrakingCount, brakingEvent);
    var accelerationEvent := DetectRapidAcceleration(current, previous);
    events', rapidAccelerationCount' := PushIfPresent(events', rapidAccelerationCount, accelerationEvent);
    var turnEvent := DetectSharpTurn(current);
    events', sharpTurnCount' := PushIfPresent(events', sharpTurnCount, turnEvent);
    PushesAppend(events, overspeedingEvent, brakingEvent, accelerationEvent, turnEvent);
    PairCounts(previous, current);
  }

  /**
   * The pairwise pass of analyzeBehavior: for each consecutive pair it pushes
   * the events its detectors report and counts them per type.
   */
  method DetectPairwiseEvents(data: seq<TelemetryData>)
    returns (events: seq<DrivingEvent>, overspeedingCount: nat, harshBrakingCount: nat,
             rapidAccelerationCount: nat, sharpTurnCount: nat)
    ensures events == DetectedEvents(data, |data|)
    ensures overspeedingCount == CountType(events, Overspeeding)
    ensures harshBrakingCount == CountType(events, HarshBraking)
    ensures rapidAccelerationCount == CountType(events, RapidAcceleration)
    ensures sharpTurnCount == CountType(events, SharpTurn)
  {
    events := [];
    overspeedingCount, harshBrakingCount, rapidAccelerationCount, sharpTurnCount := 0, 0, 0, 0;
    if |data| == 0 {
      return;
    }
    var i := 1;
    while i < |data|
      invariant Scanned(data, i, events, overspeedingCount, harshBrakingCount, rapidAccelerationCount, sharpTurnCount)
    {
      var events', overspeedingCount', harshBrakingCount', rapidAccelerationCount', sharpTurnCount' :=
        ScanPair(data[i - 1], data[i], events, overspeedingCount, harshBrakingCount, rapidAccelerationCount, sharpTurnCount);
      ScanStep(data, i, events, overspeedingCount, harshBrakingCount, rapidAccelerationCount, sharpTurnCount,
               events', overspeedingCount', harshBrakingCount', rapidAccelerationCount', sharpTurnCount');
      events, overspeedingCount, harshBrakingCount, rapidAccelerationCount, sharpTurnCount :=
        events', overspeedingCount', harshBrakingCount', rapidAccelerationCount', sharpTurnCount';
      i := i + 1;
    }
  }

  /** analyzeBehavior */
  method AnalyzeBehavior(data: seq<TelemetryData>) returns (result: BehaviorAnalysisResult)
    ensures result == Analysis(data)
  {
    var events, overspeedingCount, harshBrakingCount, rapidAccelerationCount, sharpTurnCount :=
      DetectPairwiseEvents(data);
    var fatigueDetected := DetectFatigue(data);
    var distractedDrivingEvents := DetectDistractedDriving(data);

    var aggressiveDrivingScore := AggressiveScore(overspeedingCount, harshBrakingCount, rapidAccelerationCount, sharpTurnCount);
    var smoothDrivingScore := 100.0 - aggressiveDrivingScore;
    var attentionScore := if fatigueDetected then 50.0 else 90.0;
    var overallScore := OverallScore(aggressiveDrivingScore, smoothDrivingScore, attentionScore, |events|);
    var riskLevel := DetermineRiskLevel(overallScore, events);
    var recommendations := Recommendations(TipInputs(overspeedingCount, harshBrakingCount, rapidAccelerationCount,
                                                     sharpTurnCount, fatigueDetected, distractedDrivingEvents, riskLevel));
    result := BehaviorAnalysisResult(
      overallScore, riskLevel, events,
      Insights(overspeedingCount, harshBrakingCount, rapidAccelerationCount, sharpTurnCount, false,
               fatigueDetected, distractedDrivingEvents, aggressiveDrivingScore, smoothDrivingScore, attentionScore),
      recommendations);
  }

  /** Pushing the four detector results one by one appends their `Pushes`. */
  lemma {:induction false} PushesAppend(events: seq<DrivingEvent>, o: Option<DrivingEvent>, b: Option<DrivingEvent>,
                     a: Option<DrivingEvent>, t: Option<DrivingEvent>)
    ensures events + AsSeq(o) + AsSeq(b) + AsSeq(a) + AsSeq(t) == events + Pushes(o, b, a, t)
  {
  }

  /** 1 when the optional event is present and of type t, else 0. */
  function Hit(o: Option<DrivingEvent>, t: EventType): nat
  {
    if o.Some? && o.value.eventType == t then 1 else 0
  }

  /** Counting distributes over concatenation. */
  lemma {:induction false} CountTypeAppend(front: seq<DrivingEvent>, back: seq<DrivingEvent>, t: EventType)
    ensures CountType(front + back, t) == CountType(front, t) + CountType(back, t)
  {
    if back == [] {
      assert front + back == front;
    } else {
      var rest := back[..|back| - 1];
      CountTypeAppend(front, rest, t);
      assert (front + back)[..|front + back| - 1] == front + rest;
    }
  }

  /** An optional event counts once for its own type and not at all for the others. */
  lemma {:induction false} CountTypeOption(o: Option<DrivingEvent>, t: EventType)
    ensures CountType(AsSeq(o), t) == Hit(o, t)
  {
    if o.Some? {
      assert AsSeq(o)[..0] == [];
    }
  }

  /** The events of one pair hold, of type t, one per detector of that type that fired. */
  lemma {:induction false} PushesCount(o: Option<DrivingEvent>, b: Option<DrivingEvent>,
                                       a: Option<DrivingEvent>, t: Option<DrivingEvent>, ty: EventType)
    ensures CountType(Pushes(o, b, a, t), ty) == Hit(o, ty) + Hit(b, ty) + Hit(a, ty) + Hit(t, ty)
  {
    var ob := AsSeq(o) + AsSeq(b);
    var oba := ob + AsSeq(a);
    CountTypeAppend(oba, AsSeq(t), ty);
    CountTypeAppend(ob, AsSeq(a), ty);
    CountTypeAppend(AsSeq(o), AsSeq(b), ty);
    CountTypeOption(o, ty);
    CountTypeOption(b, ty);
    CountTypeOption(a, ty);
    CountTypeOption(t, ty);
  }

  /** An optional event of type `own` is a hit for that type when present and never for another. */
  lemma {:induction false} HitOwnType(o: Option<DrivingEvent>, own: EventType)
    requires o.Some? ==> o.value.eventType == own
    ensures forall ty :: Hit(o, ty) == if ty == own then |AsSeq(o)| else 0
  {
  }

  /**
   * Four optional events, each of its own pairwise type, hold one event of
   * each type that is present and nothing else.
   */
  lemma {:induction false} PushesCounts(o: Option<DrivingEvent>, b: Option<DrivingEvent>,
                                        a: Option<DrivingEvent>, t: Option<DrivingEvent>)
    requires o.Some? ==> o.value.eventType == Overspeeding
    requires b.Some? ==> b.value.eventType == HarshBraking
    requires a.Some? ==> a.value.eventType == RapidAcceleration
    requires t.Some? ==> t.value.eventType == SharpTurn
    ensures var pushed := Pushes(o, b, a, t);
      && CountType(pushed, Overspeeding) == |AsSeq(o)|
      && CountType(pushed, HarshBraking) == |AsSeq(b)|
      && CountType(pushed, RapidAcceleration) == |AsSeq(a)|
      && CountType(pushed, SharpTurn) == |AsSeq(t)|
      && |pushed| == |AsSeq(o)| + |AsSeq(b)| + |AsSeq(a)| + |AsSeq(t)|
  {
    HitOwnType(o, Overspeeding);
    HitOwnType(b, HarshBraking);
    HitOwnType(a, RapidAcceleration);
    HitOwnType(t, SharpTurn);
    PushesCount(o, b, a, t, Overspeeding);
    PushesCount(o, b, a, t, HarshBraking);
    PushesCount(o, b, a, t, RapidAcceleration);
    PushesCount(o, b, a, t, SharpTurn);
  }

  /**
   * The events of one pair: one of each pairwise type exactly when that
   * type's detector fired, never both braking and acceleration, and nothing else.
   */
  lemma {:induction false} PairCounts(previous: TelemetryData, current: TelemetryData)
    ensures var pair := PairEvents(previous, current);
      && CountType(pair, Overspeeding) == |AsSeq(DetectOverspeeding(current))|
      && CountType(pair, HarshBraking) == |AsSeq(DetectHarshBraking(current, previous))|
      && CountType(pair, RapidAcceleration) == |AsSeq(DetectRapidAcceleration(current, previous))|
      && CountType(pair, SharpTurn) == |AsSeq(DetectSharpTurn(current))|
      && CountType(pair, HarshBraking) + CountType(pair, RapidAcceleration) <= 1
      && |pair| == CountType(pair, Overspeeding) + CountType(pair, HarshBraking)
                   + CountType(pair, RapidAcceleration) + CountType(pair, SharpTurn)
  {
    PushesCounts(DetectOverspeeding(current), DetectHarshBraking(current, previous),
                 DetectRapidAcceleration(current, previous), DetectSharpTurn(current));
    BrakingAndAccelerationExclusive(current, previous);
  }

  // ------------------------------------------------------ analysis properties

  /** The number of consecutive pairs the first k samples hold. */
  function PairsIn(k: nat): nat
  {
    if k == 0 then 0 else k - 1
  }

  /**
   * Each pair adds at most one event of each pairwise type, never both a
   * braking and an acceleration event, and nothing else.
   */
  lemma {:induction false} DetectedEventsCounts(data: seq<TelemetryData>, k: nat)
    requires k <= |data|
    ensures var ev := DetectedEvents(data, k);
      && |ev| == CountType(ev, Overspeeding) + CountType(ev, HarshBraking)
                 + CountType(ev, RapidAcceleration) + CountType(ev, SharpTurn)
      && CountType(ev, Overspeeding) <= PairsIn(k)
      && CountType(ev, HarshBraking) + CountType(ev, RapidAcceleration) <= PairsIn(k)
      && CountType(ev, SharpTurn) <= PairsIn(k)
      && |ev| <= 3 * PairsIn(k)
  {
    if k > 1 {
      DetectedEventsCounts(data, k - 1);
      var prior, pair := DetectedEvents(data, k - 1), PairEvents(data[k - 2], data[k - 1]);
      PairCounts(data[k - 2], data[k - 1]);
      CountTypeAppend(prior, pair, Overspeeding);
      CountTypeAppend(prior, pair, HarshBraking);
      CountTypeAppend(prior, pair, RapidAcceleration);
      CountTypeAppend(prior, pair, SharpTurn);
    }
  }

  /** Every detected event is of one of the four pairwise types. */
  lemma {:induction false} DetectedEventsTypes(data: seq<TelemetryData>, k: nat)
    requires k <= |data|
    ensures forall e :: e in DetectedEvents(data, k) ==> IsPairwiseType(e.eventType)
  {
    if k > 1 {
      DetectedEventsTypes(data, k - 1);
      PairEventsShape(data[k - 2], data[k - 1]);
    }
  }

  /**
   * What analyzeBehavior reports, whatever the telemetry: the event list is
   * made of the four counted kinds and holds at most three events per pair;
   * each score lies in [0, 100]; smooth and aggressive add up to 100;
   * attention is 50 with fatigue and 90 without; phone use is never detected.
   */
  lemma {:induction false} AnalysisShape(data: seq<TelemetryData>)
    ensures var r := Analysis(data);
      && |r.events| == r.insights.overspeedingIncidents + r.insights.harshBrakingCount
                       + r.insights.rapidAccelerationCount + r.insights.sharpTurnCount
      && |r.events| <= 3 * PairsIn(|data|)
      && r.insights.harshBrakingCount + r.insights.rapidAccelerationCount <= PairsIn(|data|)
      && (|data| <= 1 ==> r.events == [])
      && 0.0 <= r.overallScore <= 100.0
      && 0.0 <= r.insights.aggressiveDrivingScore <= 100.0
      && r.insights.smoothDrivingScore == 100.0 - r.insights.aggressiveDrivingScore
      && (r.insights.attentionScore == if r.insights.fatigueDetected then 50.0 else 90.0)
      && !r.insights.phoneUsageDetected
      && (|data| < 100 ==> !r.insights.fatigueDetected)
  {
    DetectedEventsCounts(data, |data|);
  }

  /**
   * A trip with no pairwise event scores 97 (85 when fatigue is detected)
   * and is rated safe.
   */
  lemma {:induction false} NoEventsIsSafe(data: seq<TelemetryData>)
    requires DetectedEvents(data, |data|) == []
    ensures Analysis(data).overallScore == if FatigueDetected(data) then 85.0 else 97.0
    ensures Analysis(data).riskLevel == Safe
  {
    var events := DetectedEvents(data, |data|);
    assert CountType(events, Overspeeding) == 0 && CountType(events, HarshBraking) == 0;
    assert CountType(events, RapidAcceleration) == 0 && CountType(events, SharpTurn) == 0;
    assert AggressiveScore(0, 0, 0, 0) == 0.0;
    DangerousIff(Analysis(data).overallScore, events);
  }

  /** A single critical event makes the whole trip dangerous, whatever the score. */
  lemma {:induction false} CriticalEventIsDangerous(data: seq<TelemetryData>, i: nat)
    requires i < |Analysis(data).events| && Analysis(data).events[i].severity == Critical
    ensures Analysis(data).riskLevel == Dangerous
  {
    var r := Analysis(data);
    DangerousIff(r.overallScore, r.events);
  }

  /** The parameters object the analysis hands to `generateRecommendations`. */
  function TipInputsOf(r: BehaviorAnalysisResult): TipInputs
  {
    var i := r.insights;
    TipInputs(i.overspeedingIncidents, i.harshBrakingCount, i.rapidAccelerationCount, i.sharpTurnCount,
              i.fatigueDetected, i.distractedDrivingEvents, r.riskLevel)
  }

  lemma {:induction false} AnalysisRecommendations(data: seq<TelemetryData>)
    ensures Analysis(data).recommendations == Recommendations(TipInputsOf(Analysis(data)))
  {
  }

  /** Three of the rules, read off the parameters object. */
  lemma {:induction false} RecommendationRules(p: TipInputs)
    ensures DefensiveDrivingTraining in Recommendations(p) <==> p.risk in {Risky, Dangerous}
    ensures TakeBreaks in Recommendations(p) <==> p.fatigue
    ensures ReduceSpeed in Recommendations(p) <==> p.overspeeding > 5
  {
    assert TipApplies(DefensiveDrivingTraining, p) <==> p.risk in {Risky, Dangerous};
  }

  /**
   * The tips are exactly those whose rule holds on the reported counts and
   * risk; in particular the training tip is given exactly for risky and
   * dangerous trips.
   */
  lemma {:induction false} AnalysisTips(data: seq<TelemetryData>)
    ensures var r := Analysis(data);
      (DefensiveDrivingTraining in r.recommendations <==> r.riskLevel in {Risky, Dangerous})
      && (TakeBreaks in r.recommendations <==> r.insights.fatigueDetected)
      && (ReduceSpeed in r.recommendations <==> r.insights.overspeedingIncidents > 5)
  {
    AnalysisRecommendations(data);
    RecommendationRules(TipInputsOf(Analysis(data)));
  }
}
