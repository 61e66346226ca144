/**
 * The accident-risk predictor (lib/ai/accident-predictor.ts).
 *
 * Six factor scores (speed, acceleration, location, time, weather, driver
 * behaviour) are combined with fixed importance weights into a risk score in
 * [0, 1]; a linear attribution around the baseline 0.3 explains it, an
 * anomaly detector over the last 30 samples may boost the risk level, and the
 * prediction carries a time-to-risk step, a confidence value, the three most
 * influential factors and a list of advice.
 *
 * Square roots and the haversine distance are not computed: the current
 * acceleration magnitude is compared in squared form, the magnitudes of the
 * recent samples are passed in together with the fact that they are the
 * non-negative roots of the squared norms, and the distance is a parameter.
 */
module AccidentPredictor {
  import opened Numeric
  import opened Folds
  import BehaviorAnalyzer

  type TelemetryData = BehaviorAnalyzer.TelemetryData
  type DrivingEvent = BehaviorAnalyzer.DrivingEvent

  datatype RiskLevel = Low | Medium | High | Critical

  function LevelRank(l: RiskLevel): nat
  {
    match l
    case Low => 0
    case Medium => 1
    case High => 2
    case Critical => 3
  }

  // ------------------------------------------------------------ risk zones

  datatype ZoneName = SilkBoardJunction | OrrFlyover | ElectronicCityToll

  datatype Incident =
    | RearEndCollision | LaneChangeAccident | OverspeedingIncident | SharpTurnIncident
    | VehicleBreakdown | SuddenBraking | LaneCutting | DistractedDrivingIncident

  datatype RiskZone = RiskZone(
    name: ZoneName,
    latitude: real,
    longitude: real,
    radius: real,
    riskLevel: RiskLevel,
    accidentCount: nat,
    commonIncidents: seq<Incident>)

  /** initializeRiskZones: the fixed table, in the order it is searched. */
  const RiskZones: seq<RiskZone> := [
    RiskZone(SilkBoardJunction, 12.9179, 77.6228, 500.0, High, 45,
             [RearEndCollision, LaneChangeAccident, OverspeedingIncident]),
    RiskZone(OrrFlyover, 12.9716, 77.5946, 800.0, Medium, 28,
             [OverspeedingIncident, SharpTurnIncident, VehicleBreakdown]),
    RiskZone(ElectronicCityToll, 12.8456, 77.6772, 600.0, Medium, 32,
             [SuddenBraking, LaneCutting, DistractedDrivingIncident])
  ]

  /** A great-circle distance in metres between (lat1, lon1) and (lat2, lon2). */
  type Distance = (real, real, real, real) -> real

  // ---------------------------------------------------------- the factors

  datatype FactorKey = Speed | Acceleration | Location | Time | Weather | DriverBehavior

  /** The keys in the order `Object.entries` visits them. */
  const FactorKeys: seq<FactorKey> := [Speed, Acceleration, Location, Time, Weather, DriverBehavior]

  function KeyRank(k: FactorKey): nat
  {
    match k
    case Speed => 0
    case Acceleration => 1
    case Location => 2
    case Time => 3
    case Weather => 4
    case DriverBehavior => 5
  }

  lemma {:induction false} FactorKeysComplete()
    ensures |FactorKeys| == 6
    ensures forall i :: 0 <= i < 6 ==> KeyRank(FactorKeys[i]) == i
    ensures forall k: FactorKey :: k in FactorKeys
  {
    forall k: FactorKey
      ensures k in FactorKeys
    {
      match k
      case Speed => assert FactorKeys[0] == k;
      case Acceleration => assert FactorKeys[1] == k;
      case Location => assert FactorKeys[2] == k;
      case Time => assert FactorKeys[3] == k;
      case Weather => assert FactorKeys[4] == k;
      case DriverBehavior => assert FactorKeys[5] == k;
    }
  }

  /** `featureImportance`: every factor carries a positive weight of at most a quarter. */
  function Importance(k: FactorKey): (w: real)
    ensures 0.1 <= w <= 0.25
  {
    match k
    case Speed => 0.25
    case Acceleration => 0.2
    case Location => 0.15
    case Time => 0.1
    case Weather => 0.1
    case DriverBehavior => 0.2
  }

  /** `contributingFactors` */
  datatype Factors = Factors(
    speed: real, acceleration: real, location: real, time: real, weather: real, driverBehavior: real)
  {
    function Get(k: FactorKey): real
    {
      match k
      case Speed => speed
      case Acceleration => acceleration
      case Location => location
      case Time => time
      case Weather => weather
      case DriverBehavior => driverBehavior
    }
  }

  /** calculateSpeedRisk: a step function of speed over the limit picked by the speed itself. */
  function SpeedRisk(speed: real): (r: real)
    ensures r in {0.1, 0.3, 0.6, 0.85, 0.95}
  {
    var limit := if speed > 80.0 then 100.0 else 60.0;
    var ratio := speed / limit;
    if ratio <= 0.8 then 0.1
    else if ratio <= 1.0 then 0.3
    else if ratio <= 1.2 then 0.6
    else if ratio <= 1.5 then 0.85
    else 0.95
  }

  /**
   * The limit is chosen from the speed itself, so the risk is not monotone:
   * 80 km/h is measured against 60 and 81 km/h against 100.
   */
  lemma {:induction false} SpeedRiskDropsPastEighty()
    ensures SpeedRisk(80.0) == 0.85
    ensures SpeedRisk(81.0) == 0.3
  {
  }

  /** `arr.slice(-n)`: the last n elements, or all of them when there are fewer. */
  function Last<T>(s: seq<T>, n: nat): (r: seq<T>)
    ensures |r| == if |s| <= n then |s| else n
    ensures forall i :: 0 <= i < |r| ==> r[i] == s[|s| - |r| + i]
  {
    if |s| <= n then s else s[|s| - n..]
  }

  /** The squared norm of the acceleration vector of one sample. */
  function NormSquared(t: TelemetryData): real
  {
    t.accelerationX * t.accelerationX + t.accelerationY * t.accelerationY
    + t.accelerationZ * t.accelerationZ
  }

  /** m is the acceleration magnitude `Math.sqrt(x² + y² + z²)` of t. */
  predicate IsMagnitude(m: real, t: TelemetryData)
  {
    m >= 0.0 && m * m == NormSquared(t)
  }

  predicate AreMagnitudes(ms: seq<real>, ts: seq<TelemetryData>)
  {
    |ms| == |ts| && forall i :: 0 <= i < |ms| ==> IsMagnitude(ms[i], ts[i])
  }

  /**
   * For a non-negative magnitude m, `m > c` is the same test as `m² > c²`;
   * this is how the current sample's thresholds are written below.
   */
  lemma {:induction false} MagnitudeAbove(m: real, t: TelemetryData, c: real)
    requires IsMagnitude(m, t) && c >= 0.0
    ensures m > c <==> NormSquared(t) > c * c
  {
    if m > c {
      PositiveProduct(m - c, m + c);
      assert m * m - c * c == (m - c) * (m + c);
    } else if m < c {
      PositiveProduct(c - m, c + m);
      assert c * c - m * m == (c - m) * (c + m);
    }
  }

  lemma {:induction false} PositiveProduct(a: real, b: real)
    requires a > 0.0 && b > 0.0
    ensures a * b > 0.0
  {
  }

  /**
   * calculateAccelerationRisk. `recentMagnitudes` are the magnitudes of the
   * last (at most) ten recent samples.
   */
  function AccelerationRisk(current: TelemetryData, recent: seq<TelemetryData>, recentMagnitudes: seq<real>): (r: real)
    requires AreMagnitudes(recentMagnitudes, Last(recent, 10))
    ensures r in {0.1, 0.2, 0.4, 0.6, 0.8}
    ensures recent == [] <==> r == 0.1
  {
    if |recent| == 0 then 0.1
    else
      var magnitudeSquared := NormSquared(current);
      var variance := Variance(recentMagnitudes);
      if magnitudeSquared > 100.0 || variance > 15.0 then 0.8
      else if magnitudeSquared > 49.0 || variance > 10.0 then 0.6
      else if magnitudeSquared > 25.0 || variance > 5.0 then 0.4
      else 0.2
  }

  function ZoneLevelRisk(l: RiskLevel): (r: real)
    ensures r in {0.9, 0.7, 0.5, 0.3}
  {
    match l
    case Critical => 0.9
    case High => 0.7
    case Medium => 0.5
    case Low => 0.3
  }

  /** The location risk that the first zone of `zones` containing the point decides. */
  function LocationRiskIn(zones: seq<RiskZone>, lat: real, lng: real, distance: Distance): (r: real)
    ensures r in {0.9, 0.7, 0.5, 0.3, 0.2}
  {
    if zones == [] then 0.2
    else if distance(lat, lng, zones[0].latitude, zones[0].longitude) <= zones[0].radius then
      ZoneLevelRisk(zones[0].riskLevel)
    else LocationRiskIn(zones[1..], lat, lng, distance)
  }

  predicate InZone(z: RiskZone, lat: real, lng: real, distance: Distance)
  {
    distance(lat, lng, z.latitude, z.longitude) <= z.radius
  }

  /**
   * The first zone in table order that contains the point decides the risk;
   * when no zone contains it the risk is 0.2.
   */
  lemma {:induction false} FirstZoneDecides(zones: seq<RiskZone>, lat: real, lng: real, distance: Distance, j: int)
    requires -1 <= j < |zones|
    requires forall i :: 0 <= i < |zones| && (j == -1 || i < j) ==> !InZone(zones[i], lat, lng, distance)
    requires j >= 0 ==> InZone(zones[j], lat, lng, distance)
    ensures LocationRiskIn(zones, lat, lng, distance) == if j == -1 then 0.2 else ZoneLevelRisk(zones[j].riskLevel)
  {
    if zones != [] && j != 0 {
      FirstZoneDecides(zones[1..], lat, lng, distance, if j == -1 then -1 else j - 1);
    }
  }

  /** At the centre of Silk Board Junction, the first zone, the location risk is that of a high zone. */
  lemma {:induction false} SilkBoardCentre(distance: Distance)
    requires distance(12.9179, 77.6228, 12.9179, 77.6228) == 0.0
    ensures LocationRiskIn(RiskZones, 12.9179, 77.6228, distance) == 0.7
  {
    FirstZoneDecides(RiskZones, 12.9179, 77.6228, distance, 0);
  }

  /** calculateLocationRisk: an early-return search of the zone table. */
  method CalculateLocationRisk(lat: real, lng: real, distance: Distance) returns (risk: real)
    ensures risk == LocationRiskIn(RiskZones, lat, lng, distance)
  {
    var i := 0;
    while i < |RiskZones|
      invariant 0 <= i <= |RiskZones|
      invariant LocationRiskIn(RiskZones[i..], lat, lng, distance) == LocationRiskIn(RiskZones, lat, lng, distance)
    {
      var zone := RiskZones[i];
      if distance(lat, lng, zone.latitude, zone.longitude) <= zone.radius {
        return ZoneLevelRisk(zone.riskLevel);
      }
      assert RiskZones[i..][1..] == RiskZones[i + 1..];
      i := i + 1;
    }
    return 0.2;
  }

  /** calculateTimeRisk: night, rush hours, midday, otherwise. */
  function TimeRisk(hour: BehaviorAnalyzer.Hour): (r: real)
    ensures r in {0.7, 0.6, 0.4, 0.3}
    ensures r == 0.7 <==> hour >= 22 || hour <= 5
  {
    if hour >= 22 || hour <= 5 then 0.7
    else if (7 <= hour <= 9) || (17 <= hour <= 19) then 0.6
    else if 12 <= hour <= 14 then 0.4
    else 0.3
  }

  /** calculateWeatherRisk: no weather source, always 0.3. */
  const WeatherRisk: real := 0.3

  predicate IsSevere(e: DrivingEvent)
  {
    e.severity == BehaviorAnalyzer.Critical || e.severity == BehaviorAnalyzer.High
  }

  /** calculateBehaviorRisk */
  function BehaviorRisk(events: seq<DrivingEvent>, recent: seq<TelemetryData>): (r: real)
    ensures r in {0.9, 0.7, 0.6, 0.5, 0.3}
    ensures r == 0.6 ==> |recent| > 20
  {
    var severe := CountWhere(events, IsSevere);
    if severe >= 3 then 0.9
    else if severe >= 2 then 0.7
    else if severe >= 1 then 0.5
    else if |recent| > 20 && Variance(BehaviorAnalyzer.Speeds(Last(recent, 20))) > 100.0 then 0.6
    else 0.3
  }

  /** Severe events dominate the variance rule: with one or more the risk is at least 0.5. */
  lemma {:induction false} BehaviorRiskSevereEvents(events: seq<DrivingEvent>, recent: seq<TelemetryData>, i: int)
    requires 0 <= i < |events| && IsSevere(events[i])
    ensures BehaviorRisk(events, recent) >= 0.5
  {
    CountWhereZero(events, IsSevere);
  }

  // ---------------------------------------------------- weighted score, SHAP

  /** The weighted sum of the factors over `keys`, accumulated in key order. */
  function WeightedSumOver(f: Factors, keys: seq<FactorKey>): real
  {
    if keys == [] then 0.0
    else WeightedSumOver(f, keys[..|keys| - 1]) + f.Get(keys[|keys| - 1]) * Importance(keys[|keys| - 1])
  }

  /** calculateWeightedRiskScore's sum: the importance-weighted sum of the six factors. */
  function WeightedSum(f: Factors): (r: real)
    ensures r ==
      0.25 * f.speed + 0.2 * f.acceleration + 0.15 * f.location
      + 0.1 * f.time + 0.1 * f.weather + 0.2 * f.driverBehavior
  {
    var ks := FactorKeys;
    assert ks[..1][..0] == [];
    assert WeightedSumOver(f, ks[..1]) == 0.25 * f.speed;
    assert ks[..2][..1] == ks[..1];
    assert WeightedSumOver(f, ks[..2]) == 0.25 * f.speed + 0.2 * f.acceleration;
    assert ks[..3][..2] == ks[..2];
    assert WeightedSumOver(f, ks[..3]) == 0.25 * f.speed + 0.2 * f.acceleration + 0.15 * f.location;
    assert ks[..4][..3] == ks[..3];
    assert WeightedSumOver(f, ks[..4]) == 0.25 * f.speed + 0.2 * f.acceleration + 0.15 * f.location + 0.1 * f.time;
    assert ks[..5][..4] == ks[..4];
    assert WeightedSumOver(f, ks[..5]) ==
      0.25 * f.speed + 0.2 * f.acceleration + 0.15 * f.location + 0.1 * f.time + 0.1 * f.weather;
    assert ks[..5] == ks[..|ks| - 1];
    WeightedSumOver(f, ks)
  }

  /** The importance weights add up to one. */
  lemma {:induction false} ImportanceSumsToOne()
    ensures WeightedSum(Factors(1.0, 1.0, 1.0, 1.0, 1.0, 1.0)) == 1.0
  {
  }

  predicate FactorsInUnitInterval(f: Factors)
  {
    forall k :: 0.0 <= f.Get(k) <= 1.0
  }

  /**
   * Because the weights add up to one, factors in [0, 1] give a weighted sum
   * in [0, 1], so the final clamp never changes it; and raising one factor
   * never lowers the sum.
   */
  lemma {:induction false} WeightedSumBounds(f: Factors)
    requires FactorsInUnitInterval(f)
    ensures 0.0 <= WeightedSum(f) <= 1.0
    ensures Clamp(0.0, 1.0, WeightedSum(f)) == WeightedSum(f)
  {
    assert 0.0 <= f.Get(Speed) <= 1.0 && 0.0 <= f.Get(Acceleration) <= 1.0;
    assert 0.0 <= f.Get(Location) <= 1.0 && 0.0 <= f.Get(Time) <= 1.0;
    assert 0.0 <= f.Get(Weather) <= 1.0 && 0.0 <= f.Get(DriverBehavior) <= 1.0;
  }

  lemma {:induction false} WeightedSumMonotone(f: Factors, g: Factors)
    requires forall k :: f.Get(k) <= g.Get(k)
    ensures WeightedSum(f) <= WeightedSum(g)
  {
    assert f.Get(Speed) <= g.Get(Speed) && f.Get(Acceleration) <= g.Get(Acceleration);
    assert f.Get(Location) <= g.Get(Location) && f.Get(Time) <= g.Get(Time);
    assert f.Get(Weather) <= g.Get(Weather) && f.Get(DriverBehavior) <= g.Get(DriverBehavior);
  }

  /** calculateWeightedRiskScore: an accumulator loop over the factor entries, then a clamp. */
  method CalculateWeightedRiskScore(f: Factors) returns (score: real)
    ensures score == Clamp(0.0, 1.0, WeightedSum(f))
  {
    var total := 0.0;
    for i := 0 to |FactorKeys|
      invariant total == WeightedSumOver(f, FactorKeys[..i])
    {
      var key := FactorKeys[i];
      assert FactorKeys[..i + 1][..i] == FactorKeys[..i];
      total := total + f.Get(key) * Importance(key);
    }
    assert FactorKeys[..|FactorKeys|] == FactorKeys;
    score := Min(1.0, Max(0.0, total));
  }

  const Baseline: real := 0.3

  /**
   * The attribution of one factor: its distance from the baseline, weighted.
   * A factor above the baseline pushes the score up, one below pulls it down.
   */
  function Shap(f: Factors, k: FactorKey): (r: real)
    ensures r > 0.0 <==> f.Get(k) > Baseline
    ensures r == 0.0 <==> f.Get(k) == Baseline
  {
    (f.Get(k) - Baseline) * Importance(k)
  }

  /**
   * The attributions add up to the unclamped weighted sum minus the
   * baseline: they explain exactly how far the score is from 0.3.
   */
  lemma {:induction false} ShapSumsToScoreMinusBaseline(f: Factors)
    ensures Shap(f, Speed) + Shap(f, Acceleration) + Shap(f, Location)
            + Shap(f, Time) + Shap(f, Weather) + Shap(f, DriverBehavior)
            == WeightedSum(f) - Baseline
  {
  }

  /** calculateSHAPValues: fills a record with one attribution per factor. */
  method CalculateShapValues(f: Factors) returns (shap: map<FactorKey, real>)
    ensures forall k: FactorKey :: k in shap && shap[k] == Shap(f, k)
  {
    shap := map[];
    for i := 0 to |FactorKeys|
      invariant forall k: FactorKey :: k in shap <==> k in FactorKeys[..i]
      invariant forall k :: k in shap ==> shap[k] == Shap(f, k)
    {
      var key := FactorKeys[i];
      shap := shap[key := (f.Get(key) - Baseline) * Importance(key)];
      assert FactorKeys[..i + 1] == FactorKeys[..i] + [key];
    }
    FactorKeysComplete();
    assert FactorKeys[..|FactorKeys|] == FactorKeys;
  }

  // ---------------------------------------------------------------- anomaly

  datatype AnomalyType = SpeedAnomaly | AccelerationAnomaly | PatternAnomaly

  /** detectAnomaly: three tests in priority order over the last 30 samples. */
  function DetectAnomaly(current: TelemetryData, recent: seq<TelemetryData>): (r: Option<AnomalyType>)
    ensures |recent| < 30 ==> r == None
  {
    if |recent| < 30 then None
    else
      var speeds := BehaviorAnalyzer.Speeds(Last(recent, 30));
      var average := MeanOf(speeds, x => x);
      if Abs(current.speed - average) > 40.0 then Some(SpeedAnomaly)
      else if NormSquared(current) > 144.0 then Some(AccelerationAnomaly)
      else if Variance(speeds) > 200.0 then Some(PatternAnomaly)
      else None
  }

  /**
   * The first test that holds decides the type: a speed deviation wins over
   * an extreme acceleration, which wins over an erratic pattern.
   */
  lemma {:induction false} AnomalyPriority(current: TelemetryData, recent: seq<TelemetryData>, magnitude: real)
    requires |recent| >= 30 && IsMagnitude(magnitude, current)
    ensures var speeds := BehaviorAnalyzer.Speeds(Last(recent, 30));
      var deviation := Abs(current.speed - MeanOf(speeds, x => x));
      && (DetectAnomaly(current, recent) == Some(SpeedAnomaly) <==> deviation > 40.0)
      && (DetectAnomaly(current, recent) == Some(AccelerationAnomaly) <==> deviation <= 40.0 && magnitude > 12.0)
      && (DetectAnomaly(current, recent) == Some(PatternAnomaly) <==>
            deviation <= 40.0 && magnitude <= 12.0 && Variance(speeds) > 200.0)
  {
    MagnitudeAbove(magnitude, current, 12.0);
  }

  // ----------------------------------------------- level, horizon, confidence

  function LevelOf(score: real): (l: RiskLevel)
    ensures l == Critical <==> score >= 0.85
    ensures l == Low <==> score < 0.5
  {
    if score >= 0.85 then Critical
    else if score >= 0.7 then High
    else if score >= 0.5 then Medium
    else Low
  }

  /** determineRiskLevel: an anomaly boosts the score by 30%, capped at 1, for the level only. */
  function DetermineRiskLevel(score: real, anomalyDetected: bool): (l: RiskLevel)
    ensures !anomalyDetected ==> l == LevelOf(score)
    ensures score >= 0.0 ==> LevelRank(LevelOf(score)) <= LevelRank(l)
  {
    LevelOf(if anomalyDetected then Min(1.0, score * 1.3) else score)
  }

  /** A higher score never gives a lower level. */
  lemma {:induction false} LevelMonotone(a: real, b: real)
    requires a <= b
    ensures LevelRank(LevelOf(a)) <= LevelRank(LevelOf(b))
  {
  }

  /**
   * For a non-negative score an anomaly never lowers the level; without an
   * anomaly the level reads the thresholds 0.85/0.7/0.5 directly.
   */
  lemma {:induction false} AnomalyNeverLowersLevel(score: real)
    requires score >= 0.0
    ensures LevelRank(DetermineRiskLevel(score, false)) <= LevelRank(DetermineRiskLevel(score, true))
  {
    if score <= 1.0 {
      LevelMonotone(score, Min(1.0, score * 1.3));
    }
  }

  /** A score of 0.66 alone is medium; with an anomaly it is boosted to 0.858 and becomes critical. */
  lemma {:induction false} AnomalyRaisesLevel()
    ensures DetermineRiskLevel(0.66, false) == Medium
    ensures DetermineRiskLevel(0.66, true) == Critical
  {
  }

  /** estimateTimeToRisk: seconds until risk, from the unboosted score. */
  function TimeToRisk(score: real): (t: nat)
    ensures t in {300, 60, 20, 5}
  {
    if score < 0.5 then 300
    else if score < 0.7 then 60
    else if score < 0.85 then 20
    else 5
  }

  /** A riskier score never leaves more time. */
  lemma {:induction false} TimeToRiskAntitone(a: real, b: real)
    requires a <= b
    ensures TimeToRisk(b) <= TimeToRisk(a)
  {
  }

  /** The confidence calculateConfidenceScore computes. */
  function Confidence(sampleCount: nat, anomalyDetected: bool): (c: real)
    ensures 0.5 <= c <= 0.85
    ensures c == 0.85 <==> sampleCount >= 20 && !anomalyDetected
  {
    Clamp(0.5, 1.0, 0.85 - (if sampleCount < 20 then 0.2 else 0.0) - (if anomalyDetected then 0.1 else 0.0))
  }

  /** calculateConfidenceScore: a local value lowered by each doubt, then clamped. */
  method CalculateConfidenceScore(recent: seq<TelemetryData>, anomalyDetected: bool) returns (confidence: real)
    ensures confidence == Confidence(|recent|, anomalyDetected)
  {
    confidence := 0.85;
    if |recent| < 20 {
      confidence := confidence - 0.2;
    }
    if anomalyDetected {
      confidence := confidence - 0.1;
    }
    confidence := Max(0.5, Min(1.0, confidence));
  }

  // ------------------------------------------------------------ top factors

  /**
   * One entry of `topFactors`. The explanation text is a fixed sentence per
   * factor and is not modelled.
   */
  datatype TopFactor = TopFactor(factor: FactorKey, impact: real, actualValue: real)

  predicate HasAllKeys(shap: map<FactorKey, real>)
  {
    forall k: FactorKey :: k in shap
  }

  /** `Object.entries(shapValues).map(...)`: one entry per key, in key order. */
  function Entries(shap: map<FactorKey, real>, f: Factors): (r: seq<TopFactor>)
    requires HasAllKeys(shap)
    ensures |r| == 6
    ensures forall i :: 0 <= i < 6 ==> r[i].factor == FactorKeys[i] && KeyRank(r[i].factor) == i
    ensures forall i :: 0 <= i < 6 ==> r[i].impact == Abs(shap[r[i].factor]) && r[i].actualValue == f.Get(r[i].factor)
  {
    FactorKeysComplete();
    seq(6, i requires 0 <= i < 6 => TopFactor(FactorKeys[i], Abs(shap[FactorKeys[i]]), f.Get(FactorKeys[i])))
  }

  function ImpactOf(t: TopFactor): real { t.impact }

  /** Ties keep the key order of the entries. */
  function FactorRank(t: TopFactor): int { KeyRank(t.factor) }

  /** identifyTopFactors: the three entries of largest |attribution|. */
  function IdentifyTopFactors(shap: map<FactorKey, real>, f: Factors): (r: seq<TopFactor>)
    requires HasAllKeys(shap)
    ensures |r| == 3
  {
    SortBy(Entries(shap, f), ImpactOf)[..3]
  }

  /** The sorted entries: ordered, and the same six entries. */
  lemma {:induction false} SortedEntries(shap: map<FactorKey, real>, f: Factors)
    requires HasAllKeys(shap)
    ensures var es := Entries(shap, f);
      var sorted := SortBy(es, ImpactOf);
      && |sorted| == 6
      && OrderedBy(sorted, ImpactOf, FactorRank)
      && (forall i :: 0 <= i < 6 ==> sorted[i] in es)
      && (forall q :: 0 <= q < 6 ==> es[q] in sorted)
  {
    var es := Entries(shap, f);
    var sorted := SortBy(es, ImpactOf);
    SortByOrdered(es, ImpactOf, FactorRank);
    forall i | 0 <= i < 6
      ensures sorted[i] in es
    {
      assert sorted[i] in multiset(sorted);
    }
    forall q | 0 <= q < 6
      ensures es[q] in sorted
    {
      assert es[q] in multiset(es);
    }
  }

  /** The top factors are the first three sorted entries, in order and of different factors. */
  lemma {:induction false} TopFactorsOrdered(shap: map<FactorKey, real>, f: Factors)
    requires HasAllKeys(shap)
    ensures var r := IdentifyTopFactors(shap, f);
      && (forall i, j :: 0 <= i < j < 3 ==> Precedes(r[i], r[j], ImpactOf, FactorRank))
      && (forall i, j :: 0 <= i < j < 3 ==> r[i].factor != r[j].factor)
  {
    var sorted := SortBy(Entries(shap, f), ImpactOf);
    var r := IdentifyTopFactors(shap, f);
    SortedEntries(shap, f);
    assert forall i :: 0 <= i < 3 ==> r[i] == sorted[i];
    forall i, j | 0 <= i < j < 3
      ensures Precedes(r[i], r[j], ImpactOf, FactorRank) && r[i].factor != r[j].factor
    {
      assert Precedes(sorted[i], sorted[j], ImpactOf, FactorRank);
    }
  }

  /** Each top factor carries |attribution| and the factor's own value. */
  lemma {:induction false} TopFactorsValues(shap: map<FactorKey, real>, f: Factors)
    requires HasAllKeys(shap)
    ensures var r := IdentifyTopFactors(shap, f);
      forall i :: 0 <= i < 3 ==> r[i].impact == Abs(shap[r[i].factor]) && r[i].actualValue == f.Get(r[i].factor)
  {
    var es := Entries(shap, f);
    var sorted := SortBy(es, ImpactOf);
    var r := IdentifyTopFactors(shap, f);
    SortedEntries(shap, f);
    forall i | 0 <= i < 3
      ensures r[i].impact == Abs(shap[r[i].factor]) && r[i].actualValue == f.Get(r[i].factor)
    {
      assert r[i] == sorted[i] && sorted[i] in es;
    }
  }

  /** No factor left out has a larger impact than the third top factor. */
  lemma {:induction false} TopFactorsMaximal(shap: map<FactorKey, real>, f: Factors)
    requires HasAllKeys(shap)
    ensures var r := IdentifyTopFactors(shap, f);
      forall k: FactorKey :: (forall i :: 0 <= i < 3 ==> r[i].factor != k) ==> Abs(shap[k]) <= r[2].impact
  {
    var es := Entries(shap, f);
    var sorted := SortBy(es, ImpactOf);
    var r := IdentifyTopFactors(shap, f);
    SortedEntries(shap, f);
    assert forall i :: 0 <= i < 3 ==> r[i] == sorted[i];
    forall k: FactorKey | forall i :: 0 <= i < 3 ==> r[i].factor != k
      ensures Abs(shap[k]) <= r[2].impact
    {
      FactorKeysComplete();
      var e := es[KeyRank(k)];
      assert e in sorted;
      var p :| 0 <= p < 6 && sorted[p] == e;
      assert p >= 3;
      assert Precedes(sorted[2], sorted[p], ImpactOf, FactorRank);
    }
  }

  /**
   * The top factors come largest impact first, ties in key order; they are
   * three different factors; each carries |shap| and the factor's value;
   * and no factor left out has a larger impact than any chosen one.
   */
  lemma {:induction false} TopFactorsAreTop(shap: map<FactorKey, real>, f: Factors)
    requires HasAllKeys(shap)
    ensures var r := IdentifyTopFactors(shap, f);
      && (forall i, j :: 0 <= i < j < 3 ==> Precedes(r[i], r[j], ImpactOf, FactorRank))
      && (forall i, j :: 0 <= i < j < 3 ==> r[i].factor != r[j].factor)
      && (forall i :: 0 <= i < 3 ==> r[i].impact == Abs(shap[r[i].factor]) && r[i].actualValue == f.Get(r[i].factor))
      && (forall k: FactorKey :: (forall i :: 0 <= i < 3 ==> r[i].factor != k) ==> Abs(shap[k]) <= r[2].impact)
  {
    TopFactorsOrdered(shap, f);
    TopFactorsValues(shap, f);
    TopFactorsMaximal(shap, f);
  }

  // -------------------------------------------------------- recommendations

  /** The advice lines `generateRecommendations` may give. */
  datatype Advice =
    | ImmediateAction | PullOver
    | ReduceSpeedForConditions | SmoothInputs | HighRiskAreaCaution
    | LowVisibilityAlertness | TakeShortBreak
    | ConsistentSpeed | CheckVehicleControl
    | ContinueSafePractices

  /** The advice of one factor; weather has none. */
  function FactorAdvice(k: FactorKey): seq<Advice>
  {
    match k
    case Speed => [ReduceSpeedForConditions]
    case Acceleration => [SmoothInputs]
    case Location => [HighRiskAreaCaution]
    case Time => [LowVisibilityAlertness]
    case Weather => []
    case DriverBehavior => [TakeShortBreak]
  }

  function FactorsAdvice(top: seq<TopFactor>): seq<Advice>
  {
    if top == [] then [] else FactorsAdvice(top[..|top| - 1]) + FactorAdvice(top[|top| - 1].factor)
  }

  function UrgentAdvice(level: RiskLevel): seq<Advice>
  {
    if level == Critical || level == High then [ImmediateAction, PullOver] else []
  }

  function AnomalyAdvice(anomaly: Option<AnomalyType>): seq<Advice>
  {
    match anomaly
    case Some(SpeedAnomaly) => [ConsistentSpeed]
    case Some(AccelerationAnomaly) => [CheckVehicleControl]
    case _ => []
  }

  /** generateRecommendations, as a specification. */
  function Recommendations(level: RiskLevel, top: seq<TopFactor>, anomaly: Option<AnomalyType>): (r: seq<Advice>)
    ensures |r| > 0
    ensures UrgentAdvice(level) <= r
    ensures AnomalyAdvice(anomaly) != [] ==> r[|r| - 1] == AnomalyAdvice(anomaly)[0]
  {
    var pushed := UrgentAdvice(level) + FactorsAdvice(top) + AnomalyAdvice(anomaly);
    if pushed == [] then [ContinueSafePractices] else pushed
  }

  /** One more top factor appends its advice after what the earlier ones gave. */
  lemma {:induction false} AdviceStep(level: RiskLevel, top: seq<TopFactor>, i: nat)
    requires i < |top|
    ensures UrgentAdvice(level) + FactorsAdvice(top[..i + 1]) ==
      UrgentAdvice(level) + FactorsAdvice(top[..i]) + FactorAdvice(top[i].factor)
  {
    assert top[..i + 1][..i] == top[..i];
  }

  /** The `switch` on one top factor's name. */
  method PushFactorAdvice(recommendations: seq<Advice>, factor: FactorKey) returns (r: seq<Advice>)
    ensures r == recommendations + FactorAdvice(factor)
  {
    r := recommendations;
    match factor {
      case Speed => r := r + [ReduceSpeedForConditions];
      case Acceleration => r := r + [SmoothInputs];
      case Location => r := r + [HighRiskAreaCaution];
      case Time => r := r + [LowVisibilityAlertness];
      case Weather =>
      case DriverBehavior => r := r + [TakeShortBreak];
    }
  }

  /** The advice for a detected anomaly. */
  method PushAnomalyAdvice(recommendations: seq<Advice>, anomaly: Option<AnomalyType>) returns (r: seq<Advice>)
    ensures r == recommendations + AnomalyAdvice(anomaly)
  {
    r := recommendations;
    if anomaly.Some? {
      if anomaly.value == SpeedAnomaly {
        r := r + [ConsistentSpeed];
      } else if anomaly.value == AccelerationAnomaly {
        r := r + [CheckVehicleControl];
      }
    }
  }

  /** generateRecommendations */
  method GenerateRecommendations(level: RiskLevel, top: seq<TopFactor>, anomaly: Option<AnomalyType>)
    returns (recommendations: seq<Advice>)
    ensures recommendations == Recommendations(level, top, anomaly)
  {
    recommendations := [];
    if level == Critical || level == High {
      recommendations := recommendations + [ImmediateAction, PullOver];
    }
    for i := 0 to |top|
      invariant recommendations == UrgentAdvice(level) + FactorsAdvice(top[..i])
    {
      recommendations := PushFactorAdvice(recommendations, top[i].factor);
      AdviceStep(level, top, i);
    }
    assert top[..|top|] == top;
    recommendations := PushAnomalyAdvice(recommendations, anomaly);
    if |recommendations| == 0 {
      recommendations := recommendations + [ContinueSafePractices];
    }
  }

  lemma {:induction false} FactorsAdviceNotUrgent(top: seq<TopFactor>)
    ensures ImmediateAction !in FactorsAdvice(top) && PullOver !in FactorsAdvice(top)
    ensures ContinueSafePractices !in FactorsAdvice(top)
  {
    if top != [] {
      FactorsAdviceNotUrgent(top[..|top| - 1]);
    }
  }

  predicate IsWeather(t: TopFactor)
  {
    t.factor == Weather
  }

  /** Every top factor except weather produces one advice line. */
  lemma {:induction false} FactorsAdviceLength(top: seq<TopFactor>)
    ensures |FactorsAdvice(top)| == |top| - CountWhere(top, IsWeather)
  {
    if top != [] {
      FactorsAdviceLength(top[..|top| - 1]);
    }
  }

  /**
   * The advice list is never empty; it opens with the immediate-action and
   * pull-over lines exactly when the level is high or critical; the fallback
   * line appears only when nothing else was pushed.
   */
  lemma {:induction false} RecommendationsShape(level: RiskLevel, top: seq<TopFactor>, anomaly: Option<AnomalyType>)
    ensures var r := Recommendations(level, top, anomaly);
      && |r| > 0
      && (|r| >= 2 && r[0] == ImmediateAction && r[1] == PullOver <==> level in {High, Critical})
      && (ContinueSafePractices in r <==> r == [ContinueSafePractices])
  {
    FactorsAdviceNotUrgent(top);
    var r := Recommendations(level, top, anomaly);
    var fa := FactorsAdvice(top);
    if level !in {High, Critical} && fa != [] {
      assert r[0] == fa[0];
      assert fa[0] in fa;
    }
  }

  // ------------------------------------------------------------- prediction

  datatype AccidentPrediction = AccidentPrediction(
    riskScore: real,
    riskLevel: RiskLevel,
    contributingFactors: Factors,
    anomalyDetected: bool,
    anomalyType: Option<AnomalyType>,
    timeToRisk: nat,
    confidenceScore: real,
    shapValues: map<FactorKey, real>,
    topFactors: seq<TopFactor>,
    recommendations: seq<Advice>)

  /** `predictionModel`, a fixed label. */
  const PredictionModel: string := "LSTM-GRU Ensemble v2.1"

  function ShapMap(f: Factors): (m: map<FactorKey, real>)
  {
    map k: FactorKey | k in FactorKeys :: Shap(f, k)
  }

  function ContributingFactors(current: TelemetryData, recent: seq<TelemetryData>, recentMagnitudes: seq<real>,
                               events: seq<DrivingEvent>, distance: Distance): Factors
    requires AreMagnitudes(recentMagnitudes, Last(recent, 10))
  {
    Factors(
      SpeedRisk(current.speed),
      AccelerationRisk(current, recent, recentMagnitudes),
      LocationRiskIn(RiskZones, current.latitude, current.longitude, distance),
      TimeRisk(current.timestamp.hour),
      WeatherRisk,
      BehaviorRisk(events, recent))
  }

  /** predictAccidentRisk, as a specification. */
  function Prediction(current: TelemetryData, recent: seq<TelemetryData>, recentMagnitudes: seq<real>,
                      events: seq<DrivingEvent>, distance: Distance): (r: AccidentPrediction)
    requires AreMagnitudes(recentMagnitudes, Last(recent, 10))
    ensures 0.0 <= r.riskScore <= 1.0
    ensures r.anomalyDetected <==> r.anomalyType.Some?
    ensures |r.recommendations| > 0
  {
    var f := ContributingFactors(current, recent, recentMagnitudes, events, distance);
    var score := Clamp(0.0, 1.0, WeightedSum(f));
    var shap := ShapMap(f);
    FactorKeysComplete();
    var anomaly := DetectAnomaly(current, recent);
    var level := DetermineRiskLevel(score, anomaly.Some?);
    var top := IdentifyTopFactors(shap, f);
    AccidentPrediction(score, level, f, anomaly.Some?, anomaly, TimeToRisk(score),
      Confidence(|recent|, anomaly.Some?), shap, top, Recommendations(level, top, anomaly))
  }

  /** predictAccidentRisk */
  method PredictAccidentRisk(current: TelemetryData, recent: seq<TelemetryData>, recentMagnitudes: seq<real>,
                             events: seq<DrivingEvent>, distance: Distance)
    returns (prediction: AccidentPrediction)
    requires AreMagnitudes(recentMagnitudes, Last(recent, 10))
    ensures prediction == Prediction(current, recent, recentMagnitudes, events, distance)
  {
    var speedRisk := SpeedRisk(current.speed);
    var accelerationRisk := AccelerationRisk(current, recent, recentMagnitudes);
    var locationRisk := CalculateLocationRisk(current.latitude, current.longitude, distance);
    var timeRisk := TimeRisk(current.timestamp.hour);
    var weatherRisk := WeatherRisk;
    var behaviorRisk := BehaviorRisk(events, recent);
    var factors := Factors(speedRisk, accelerationRisk, locationRisk, timeRisk, weatherRisk, behaviorRisk);

    var riskScore := CalculateWeightedRiskScore(factors);
    var shapValues := CalculateShapValues(factors);
    FactorKeysComplete();
    assert shapValues == ShapMap(factors);
    var anomaly := DetectAnomaly(current, recent);
    var riskLevel := DetermineRiskLevel(riskScore, anomaly.Some?);
    var timeToRisk := TimeToRisk(riskScore);
    var confidenceScore := CalculateConfidenceScore(recent, anomaly.Some?);
    var topFactors := IdentifyTopFactors(shapValues, factors);
    var recommendations := GenerateRecommendations(riskLevel, topFactors, anomaly);
    prediction := AccidentPrediction(riskScore, riskLevel, factors, anomaly.Some?, anomaly, timeToRisk,
      confidenceScore, shapValues, topFactors, recommendations);
  }

  /** Every factor the predictor computes lies in [0, 1]. */
  lemma {:induction false} ContributingFactorsInUnitInterval(current: TelemetryData, recent: seq<TelemetryData>,
                                          recentMagnitudes: seq<real>, events: seq<DrivingEvent>, distance: Distance)
    requires AreMagnitudes(recentMagnitudes, Last(recent, 10))
    ensures FactorsInUnitInterval(ContributingFactors(current, recent, recentMagnitudes, events, distance))
  {
    var f := ContributingFactors(current, recent, recentMagnitudes, events, distance);
    forall k
      ensures 0.0 <= f.Get(k) <= 1.0
    {
      match k
      case Speed =>
      case Acceleration =>
      case Location =>
      case Time =>
      case Weather =>
      case DriverBehavior =>
    }
  }

  /**
   * The score is the unclamped weighted sum of factors in [0, 1]; time to
   * risk reads the same score, and the level reads it possibly boosted, never
   * below the plain threshold level; with fewer than 30 recent samples there
   * is no anomaly and the level is the plain threshold level; confidence
   * lies in [0.5, 0.85].
   */
  lemma {:induction false} PredictionScore(current: TelemetryData, recent: seq<TelemetryData>, recentMagnitudes: seq<real>,
                        events: seq<DrivingEvent>, distance: Distance)
    requires AreMagnitudes(recentMagnitudes, Last(recent, 10))
    ensures var p := Prediction(current, recent, recentMagnitudes, events, distance);
      && FactorsInUnitInterval(p.contributingFactors)
      && p.riskScore == WeightedSum(p.contributingFactors)
      && 0.0 <= p.riskScore <= 1.0
      && p.timeToRisk == TimeToRisk(p.riskScore)
      && LevelRank(LevelOf(p.riskScore)) <= LevelRank(p.riskLevel)
      && (|recent| < 30 ==> !p.anomalyDetected && p.riskLevel == LevelOf(p.riskScore))
      && 0.5 <= p.confidenceScore <= 0.85
  {
    var f := ContributingFactors(current, recent, recentMagnitudes, events, distance);
    ContributingFactorsInUnitInterval(current, recent, recentMagnitudes, events, distance);
    WeightedSumBounds(f);
    AnomalyNeverLowersLevel(WeightedSum(f));
  }

  /**
   * Three distinct top factors hold at most one weather factor, so at least
   * two advice lines come from them and the fallback line is never given.
   */
  lemma {:induction false} AdviceFromDistinctFactors(level: RiskLevel, top: seq<TopFactor>, anomaly: Option<AnomalyType>)
    requires |top| == 3
    requires forall i, j :: 0 <= i < j < 3 ==> top[i].factor != top[j].factor
    ensures |Recommendations(level, top, anomaly)| >= 2
    ensures ContinueSafePractices !in Recommendations(level, top, anomaly)
  {
    WeatherAtMostOnce(top);
    FactorsAdviceLength(top);
    FactorsAdviceNotUrgent(top);
  }

  /** In a prediction the top factors are three and the advice is never the fallback. */
  lemma {:induction false} PredictionAdvice(current: TelemetryData, recent: seq<TelemetryData>, recentMagnitudes: seq<real>,
                         events: seq<DrivingEvent>, distance: Distance)
    requires AreMagnitudes(recentMagnitudes, Last(recent, 10))
    ensures var p := Prediction(current, recent, recentMagnitudes, events, distance);
      && |p.topFactors| == 3
      && |p.recommendations| >= 2
      && ContinueSafePractices !in p.recommendations
  {
    var p := Prediction(current, recent, recentMagnitudes, events, distance);
    var f := p.contributingFactors;
    FactorKeysComplete();
    TopFactorsOrdered(p.shapValues, f);
    AdviceFromDistinctFactors(p.riskLevel, p.topFactors, p.anomalyType);
  }

  /** Among three distinct factors, weather is at most one. */
  lemma {:induction false} WeatherAtMostOnce(top: seq<TopFactor>)
    requires |top| == 3
    requires forall i, j :: 0 <= i < j < 3 ==> top[i].factor != top[j].factor
    ensures CountWhere(top, IsWeather) <= 1
  {
    assert CountWhere(top[..1], IsWeather) == if IsWeather(top[0]) then 1 else 0 by {
      assert top[..1][..0] == [];
    }
    assert CountWhere(top[..2], IsWeather) == CountWhere(top[..1], IsWeather) + if IsWeather(top[1]) then 1 else 0 by {
      assert top[..2][..1] == top[..1];
    }
    assert CountWhere(top, IsWeather) == CountWhere(top[..2], IsWeather) + if IsWeather(top[2]) then 1 else 0;
  }

  /**
   * The live monitor passes the last 20 samples; with that window the
   * anomaly detector never fires and confidence is its full 0.85.
   */
  lemma {:induction false} TwentySampleWindow(current: TelemetryData, recent: seq<TelemetryData>, recentMagnitudes: seq<real>,
                           events: seq<DrivingEvent>, distance: Distance)
    requires |recent| == 20 && AreMagnitudes(recentMagnitudes, Last(recent, 10))
    ensures !Prediction(current, recent, recentMagnitudes, events, distance).anomalyDetected
    ensures Prediction(current, recent, recentMagnitudes, events, distance).confidenceScore == 0.85
  {
  }
}
