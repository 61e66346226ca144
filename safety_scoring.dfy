/**
 * Per-customer AI safety scoring (lib/ai-safety-scoring.ts).
 *
 * The exported entry points filter a mock-data module by customer id; here
 * the already filtered vehicles, challans and driving records are
 * parameters, and so are "now" and the six- and three-month cut-offs that
 * the source derives from the wall clock with calendar arithmetic. Human
 * readable titles, tips and recommendations are enumerations.
 */
module SafetyScoring {
  import opened Numeric
  import opened Folds
  import DU = DateUtils

  // ---------------------------------------------------------------------
  // Records (lib/types.ts)
  // ---------------------------------------------------------------------

  /** One trip summary of a customer: peak speed and counts of risky manoeuvres. */
  datatype DrivingBehavior = DrivingBehavior(
    maxSpeed: real,
    harshBraking: real,
    rapidAcceleration: real,
    sharpTurns: real,
    nightDriving: real,
    phoneUsage: real,
    safetyScore: real)

  datatype ChallanStatus = Paid | Pending | Overdue

  /** A traffic challan (fine); its date is the parsed date string. */
  datatype Challan = Challan(violationType: string, date: DU.ParsedDate, status: ChallanStatus)

  datatype Vehicle = Vehicle(rcExpiry: DU.ParsedDate, pucExpiry: DU.ParsedDate, insuranceExpiry: DU.ParsedDate)

  /** The counts are non-negative, as every producer of trip summaries records them. */
  predicate CountsNonNegative(b: DrivingBehavior)
  {
    b.harshBraking >= 0.0 && b.rapidAcceleration >= 0.0 && b.sharpTurns >= 0.0 &&
    b.nightDriving >= 0.0 && b.phoneUsage >= 0.0
  }

  // ---------------------------------------------------------------------
  // Speed compliance
  // ---------------------------------------------------------------------

  /** Half a point for every km/h of peak speed above 80. */
  function SpeedPenalty(b: DrivingBehavior): (p: real)
    ensures p >= 0.0
    ensures p == 0.0 <==> b.maxSpeed <= 80.0
  {
    if b.maxSpeed > 80.0 then (b.maxSpeed - 80.0) * 0.5 else 0.0
  }

  /** calculateSpeedCompliance: 85 without trips, else 100 less the mean penalty, clamped. */
  function SpeedCompliance(behavior: seq<DrivingBehavior>): (r: real)
    ensures 0.0 <= r <= 100.0
    ensures behavior == [] ==> r == 85.0
  {
    if |behavior| == 0 then 85.0
    else Clamp(0.0, 100.0, 100.0 - MeanOf(behavior, SpeedPenalty))
  }

  /** Trips that never exceed 80 km/h score full marks; one penalised trip drops the score below 100. */
  lemma {:induction false} SpeedComplianceFull(behavior: seq<DrivingBehavior>)
    requires behavior != []
    ensures SpeedCompliance(behavior) == 100.0 <==> forall i :: 0 <= i < |behavior| ==> behavior[i].maxSpeed <= 80.0
  {
    if forall i :: 0 <= i < |behavior| ==> behavior[i].maxSpeed <= 80.0 {
      MeanOfAtMost(behavior, SpeedPenalty, 0.0);
      MeanOfAtLeast(behavior, SpeedPenalty, 0.0);
    } else {
      var k :| 0 <= k < |behavior| && behavior[k].maxSpeed > 80.0;
      SumOfPositive(behavior, SpeedPenalty, k);
    }
  }

  /** A sum of non-negative terms one of which is positive is positive. */
  lemma {:induction false} SumOfPositive<T>(s: seq<T>, f: T -> real, k: int)
    requires 0 <= k < |s|
    requires forall i :: 0 <= i < |s| ==> f(s[i]) >= 0.0
    requires f(s[k]) > 0.0
    ensures SumOf(s, f) > 0.0
  {
    var init := s[..|s| - 1];
    assert forall i :: 0 <= i < |init| ==> init[i] == s[i];
    SumOfAtLeast(init, f, 0.0);
    if k < |s| - 1 {
      SumOfPositive(init, f, k);
    }
  }

  // ---------------------------------------------------------------------
  // Traffic rule compliance
  // ---------------------------------------------------------------------

  /** A challan dated after the cut-off; an unparseable date never is. */
  predicate IssuedAfter(c: Challan, cutoff: int)
  {
    c.date.Some? && c.date.value > cutoff
  }

  /** The number of challans dated after the cut-off. */
  function CountIssuedAfter(challans: seq<Challan>, cutoff: int): (n: nat)
    ensures n <= |challans|
  {
    if challans == [] then 0
    else
      CountIssuedAfter(challans[..|challans| - 1], cutoff) +
      (if IssuedAfter(challans[|challans| - 1], cutoff) then 1 else 0)
  }

  lemma {:induction false} CountIssuedAfterZero(challans: seq<Challan>, cutoff: int)
    ensures CountIssuedAfter(challans, cutoff) == 0 <==> forall i :: 0 <= i < |challans| ==> !IssuedAfter(challans[i], cutoff)
  {
    if challans != [] {
      var init := challans[..|challans| - 1];
      assert forall i :: 0 <= i < |init| ==> init[i] == challans[i];
      CountIssuedAfterZero(init, cutoff);
    }
  }

  /**
   * calculateTrafficRuleCompliance: 95 without challans, else 100 less 15 per
   * challan of the last six months and 8 per older one, clamped.
   */
  function TrafficRuleCompliance(challans: seq<Challan>, sixMonthsAgo: int): (r: real)
    ensures 0.0 <= r <= 100.0
    ensures challans == [] ==> r == 95.0
    ensures challans != [] ==> r <= 92.0
    ensures challans != [] ==> r >= 100.0 - 15.0 * |challans| as real
  {
    if |challans| == 0 then 95.0
    else
      var recent := CountIssuedAfter(challans, sixMonthsAgo);
      var violationPenalty := recent * 15 + (|challans| - recent) * 8;
      Clamp(0.0, 100.0, 100.0 - violationPenalty as real)
  }

  /** With the same number of challans, none recent scores at least as high as all recent. */
  lemma {:induction false} TrafficRecentWeighsMore(challans: seq<Challan>, sixMonthsAgo: int)
    requires challans != []
    ensures CountIssuedAfter(challans, sixMonthsAgo) == 0 ==>
      TrafficRuleCompliance(challans, sixMonthsAgo) == Max(0.0, 100.0 - 8.0 * |challans| as real)
    ensures CountIssuedAfter(challans, sixMonthsAgo) == |challans| ==>
      TrafficRuleCompliance(challans, sixMonthsAgo) == Max(0.0, 100.0 - 15.0 * |challans| as real)
  {
  }

  // ---------------------------------------------------------------------
  // Document compliance
  // ---------------------------------------------------------------------

  /** What one document adds to the valid count: 1 if unexpired, less 0.3 when expiring soon. */
  function DocumentCredit(expiry: DU.ParsedDate, now: int): (c: real)
    ensures c == 0.0 <==> DU.IsExpired(expiry, now)
    ensures c == 0.7 <==> DU.IsExpiringSoon(expiry, now, DU.DefaultThreshold)
    ensures c == 1.0 <==> DU.GetDocumentStatus(expiry, now) == DU.Valid
  {
    if DU.IsExpiringSoon(expiry, now, DU.DefaultThreshold) then
      DU.ExpiringSoonIsNotExpired(expiry, now, DU.DefaultThreshold);
      1.0 - 0.3
    else if DU.IsExpired(expiry, now) then 0.0
    else 1.0
  }

  /** The credit of a vehicle's RC, PUC and insurance. */
  function VehicleCredit(v: Vehicle, now: int): (c: real)
    ensures 0.0 <= c <= 3.0
  {
    DocumentCredit(v.rcExpiry, now) + DocumentCredit(v.pucExpiry, now) + DocumentCredit(v.insuranceExpiry, now)
  }

  /** The valid-document count the source accumulates over the vehicles. */
  function ValidDocuments(vehicles: seq<Vehicle>, now: int): (r: real)
    ensures 0.0 <= r <= 3.0 * |vehicles| as real
  {
    if vehicles == [] then 0.0
    else ValidDocuments(vehicles[..|vehicles| - 1], now) + VehicleCredit(vehicles[|vehicles| - 1], now)
  }

  /** calculateDocumentCompliance as a value: 85 without vehicles, else the rounded percentage of valid documents. */
  function DocumentCompliance(vehicles: seq<Vehicle>, now: int): (r: int)
    ensures vehicles == [] ==> r == 85
    ensures 0 <= r <= 100
  {
    if |vehicles| == 0 then 85
    else
      var total := (3 * |vehicles|) as real;
      var ratio := ValidDocuments(vehicles, now) / total;
      DivisionBounds(ValidDocuments(vehicles, now), total, 0.0, 1.0);
      RoundWithin(ratio * 100.0, 0, 100);
      Round(ratio * 100.0)
  }

  /** calculateDocumentCompliance: counters updated vehicle by vehicle. */
  method CalculateDocumentCompliance(vehicles: seq<Vehicle>, now: int) returns (score: int)
    ensures score == DocumentCompliance(vehicles, now)
  {
    if |vehicles| == 0 {
      return 85;
    }
    var totalDocuments := 0;
    var validDocuments := 0.0;
    for i := 0 to |vehicles|
      invariant totalDocuments == 3 * i
      invariant validDocuments == ValidDocuments(vehicles[..i], now)
    {
      var vehicle := vehicles[i];
      totalDocuments := totalDocuments + 3;
      var before := validDocuments;
      if !DU.IsExpired(vehicle.rcExpiry, now) { validDocuments := validDocuments + 1.0; }
      if !DU.IsExpired(vehicle.pucExpiry, now) { validDocuments := validDocuments + 1.0; }
      if !DU.IsExpired(vehicle.insuranceExpiry, now) { validDocuments := validDocuments + 1.0; }
      if DU.IsExpiringSoon(vehicle.rcExpiry, now, DU.DefaultThreshold) { validDocuments := validDocuments - 0.3; }
      if DU.IsExpiringSoon(vehicle.pucExpiry, now, DU.DefaultThreshold) { validDocuments := validDocuments - 0.3; }
      if DU.IsExpiringSoon(vehicle.insuranceExpiry, now, DU.DefaultThreshold) { validDocuments := validDocuments - 0.3; }
      assert validDocuments == before + VehicleCredit(vehicle, now);
      assert vehicles[..i + 1][..i] == vehicles[..i];
    }
    assert vehicles[..|vehicles|] == vehicles;
    score := Round(validDocuments / totalDocuments as real * 100.0);
  }

  predicate AllDocumentsValid(v: Vehicle, now: int)
  {
    DU.GetDocumentStatus(v.rcExpiry, now) == DU.Valid &&
    DU.GetDocumentStatus(v.pucExpiry, now) == DU.Valid &&
    DU.GetDocumentStatus(v.insuranceExpiry, now) == DU.Valid
  }

  predicate AllDocumentsExpired(v: Vehicle, now: int)
  {
    DU.IsExpired(v.rcExpiry, now) && DU.IsExpired(v.pucExpiry, now) && DU.IsExpired(v.insuranceExpiry, now)
  }

  lemma {:induction false} ValidDocumentsExtremes(vehicles: seq<Vehicle>, now: int)
    ensures (forall i :: 0 <= i < |vehicles| ==> AllDocumentsValid(vehicles[i], now)) ==>
      ValidDocuments(vehicles, now) == 3.0 * |vehicles| as real
    ensures (forall i :: 0 <= i < |vehicles| ==> AllDocumentsExpired(vehicles[i], now)) ==>
      ValidDocuments(vehicles, now) == 0.0
  {
    if vehicles != [] {
      var init := vehicles[..|vehicles| - 1];
      assert forall i :: 0 <= i < |init| ==> init[i] == vehicles[i];
      ValidDocumentsExtremes(init, now);
    }
  }

  /** Every document valid scores 100. */
  lemma {:induction false} DocumentComplianceAllValid(vehicles: seq<Vehicle>, now: int)
    requires vehicles != []
    requires forall i :: 0 <= i < |vehicles| ==> AllDocumentsValid(vehicles[i], now)
    ensures DocumentCompliance(vehicles, now) == 100
  {
    ValidDocumentsExtremes(vehicles, now);
    var total := (3 * |vehicles|) as real;
    assert ValidDocuments(vehicles, now) / total == 1.0;
  }

  /** Every document expired scores 0. */
  lemma {:induction false} DocumentComplianceAllExpired(vehicles: seq<Vehicle>, now: int)
    requires vehicles != []
    requires forall i :: 0 <= i < |vehicles| ==> AllDocumentsExpired(vehicles[i], now)
    ensures DocumentCompliance(vehicles, now) == 0
  {
    ValidDocumentsExtremes(vehicles, now);
    var total := (3 * |vehicles|) as real;
    assert ValidDocuments(vehicles, now) / total == 0.0;
  }

  // ---------------------------------------------------------------------
  // Driving behaviour and violation history
  // ---------------------------------------------------------------------

  /** One trip's behaviour score: 100 less weighted manoeuvre counts, floored at 0. */
  function TripScore(b: DrivingBehavior): (s: real)
    ensures s >= 0.0
    ensures CountsNonNegative(b) ==> s <= 100.0
  {
    Max(0.0, 100.0 - b.harshBraking * 5.0 - b.rapidAcceleration * 4.0 - b.sharpTurns * 3.0
      - b.phoneUsage * 10.0 - b.nightDriving * 2.0)
  }

  /** calculateDrivingBehaviorScore: 80 without trips, else the rounded mean trip score. */
  function DrivingBehaviorScore(behavior: seq<DrivingBehavior>): (r: int)
    ensures behavior == [] ==> r == 80
    ensures r >= 0
  {
    if |behavior| == 0 then 80
    else
      MeanOfAtLeast(behavior, TripScore, 0.0);
      Round(MeanOf(behavior, TripScore))
  }

  /** With non-negative counts the behaviour score is at most 100, and trips without manoeuvres score 100. */
  lemma {:induction false} DrivingBehaviorScoreBounds(behavior: seq<DrivingBehavior>)
    requires forall i :: 0 <= i < |behavior| ==> CountsNonNegative(behavior[i])
    ensures 0 <= DrivingBehaviorScore(behavior) <= 100
    ensures behavior != [] && (forall i :: 0 <= i < |behavior| ==> TripScore(behavior[i]) == 100.0) ==>
      DrivingBehaviorScore(behavior) == 100
  {
    if behavior != [] {
      MeanOfBounds(behavior, TripScore, 0.0, 100.0);
      RoundWithin(MeanOf(behavior, TripScore), 0, 100);
      if forall i :: 0 <= i < |behavior| ==> TripScore(behavior[i]) == 100.0 {
        MeanOfAtLeast(behavior, TripScore, 100.0);
      }
    }
  }

  predicate IsPaid(c: Challan) { c.status == Paid }

  predicate IsUnpaid(c: Challan) { c.status == Pending || c.status == Overdue }

  /** calculateViolationHistoryScore: 100 without challans, else the paid percentage less 10 per unpaid challan, clamped. */
  function ViolationHistoryScore(challans: seq<Challan>): (r: real)
    ensures 0.0 <= r <= 100.0
    ensures challans == [] ==> r == 100.0
  {
    if |challans| == 0 then 100.0
    else
      var paidChallans := CountWhere(challans, IsPaid);
      var pendingChallans := CountWhere(challans, IsUnpaid);
      var paymentScore := if |challans| > 0 then paidChallans as real / |challans| as real * 100.0 else 100.0;
      var pendingPenalty := (pendingChallans * 10) as real;
      Clamp(0.0, 100.0, paymentScore - pendingPenalty)
  }

  /** Every challan is either paid or unpaid. */
  lemma {:induction false} PaidPlusUnpaid(challans: seq<Challan>)
    ensures CountWhere(challans, IsPaid) + CountWhere(challans, IsUnpaid) == |challans|
  {
    if challans != [] {
      PaidPlusUnpaid(challans[..|challans| - 1]);
    }
  }

  /** All challans paid scores 100. */
  lemma {:induction false} ViolationHistoryAllPaid(challans: seq<Challan>)
    requires challans != []
    requires forall i :: 0 <= i < |challans| ==> IsPaid(challans[i])
    ensures ViolationHistoryScore(challans) == 100.0
  {
    CountWhereAll(challans, IsPaid);
    CountWhereZero(challans, IsUnpaid);
    assert CountWhere(challans, IsPaid) as real / |challans| as real == 1.0;
  }

  /** A single unpaid (pending or overdue) challan drops the score below 90. */
  lemma {:induction false} ViolationHistoryUnpaid(challans: seq<Challan>, k: int)
    requires 0 <= k < |challans| && IsUnpaid(challans[k])
    ensures ViolationHistoryScore(challans) < 90.0
  {
    var n := |challans| as real;
    var paid := CountWhere(challans, IsPaid);
    CountWhereZero(challans, IsUnpaid);
    PaidPlusUnpaid(challans);
    RatioBelowOne(paid as real, n);
  }

  lemma {:induction false} RatioBelowOne(x: real, n: real)
    requires 0.0 <= x < n
    ensures x / n < 1.0
  {
    var q := x / n;
    assert (1.0 - q) * n == n - x;
  }

  // ---------------------------------------------------------------------
  // Weighted overall score, risk level and trend
  // ---------------------------------------------------------------------

  datatype SafetyFactors = SafetyFactors(
    speedCompliance: real,
    trafficRuleCompliance: real,
    documentCompliance: real,
    drivingBehavior: real,
    violationHistory: real)

  predicate FactorsInRange(f: SafetyFactors)
  {
    0.0 <= f.speedCompliance <= 100.0 && 0.0 <= f.trafficRuleCompliance <= 100.0 &&
    0.0 <= f.documentCompliance <= 100.0 && 0.0 <= f.drivingBehavior <= 100.0 &&
    0.0 <= f.violationHistory <= 100.0
  }

  /** The rounded weighted sum: 25% speed, 25% traffic, 15% documents, 25% behaviour, 10% history. */
  function OverallScore(f: SafetyFactors): (r: int)
    ensures FactorsInRange(f) ==> 0 <= r <= 100
  {
    Round(f.speedCompliance * 0.25 + f.trafficRuleCompliance * 0.25 + f.documentCompliance * 0.15 +
      f.drivingBehavior * 0.25 + f.violationHistory * 0.1)
  }

  /** The weights sum to one: factors in [0, 100] give an overall score in [0, 100]. */
  lemma {:induction false} OverallScoreBounds(f: SafetyFactors)
    requires FactorsInRange(f)
    ensures 0 <= OverallScore(f) <= 100
  {
    var x := f.speedCompliance * 0.25 + f.trafficRuleCompliance * 0.25 + f.documentCompliance * 0.15 +
      f.drivingBehavior * 0.25 + f.violationHistory * 0.1;
    RoundWithin(x, 0, 100);
  }

  /** Equal factors score their own rounded value, since the weights sum to one. */
  lemma {:induction false} OverallScoreOfEqualFactors(v: real)
    ensures OverallScore(SafetyFactors(v, v, v, v, v)) == Round(v)
  {
    assert v * 0.25 + v * 0.25 + v * 0.15 + v * 0.25 + v * 0.1 == v;
  }

  /** Raising any one factor never lowers the overall score. */
  lemma {:induction false} OverallScoreMonotone(f: SafetyFactors, g: SafetyFactors)
    requires f.speedCompliance <= g.speedCompliance && f.trafficRuleCompliance <= g.trafficRuleCompliance
    requires f.documentCompliance <= g.documentCompliance && f.drivingBehavior <= g.drivingBehavior
    requires f.violationHistory <= g.violationHistory
    ensures OverallScore(f) <= OverallScore(g)
  {
  }

  datatype RiskLevel = LowRisk | MediumRisk | HighRisk

  datatype Trend = Improving | Stable | Declining

  /** riskLevel: low from 80, medium from 60, else high. */
  function RiskLevelOf(score: int): (l: RiskLevel)
    ensures l == LowRisk <==> score >= 80
    ensures l == HighRisk <==> score < 60
  {
    if score >= 80 then LowRisk else if score >= 60 then MediumRisk else HighRisk
  }

  /** trend: improving from 85, stable from 70, else declining. */
  function TrendOf(score: int): (t: Trend)
    ensures t == Improving <==> score >= 85
    ensures t == Declining <==> score < 70
  {
    if score >= 85 then Improving else if score >= 70 then Stable else Declining
  }

  /** The two bands agree: an improving trend is low risk, and high risk is always declining. */
  lemma {:induction false} RiskAndTrendAgree(score: int)
    ensures TrendOf(score) == Improving ==> RiskLevelOf(score) == LowRisk
    ensures TrendOf(score) == Stable ==> RiskLevelOf(score) != HighRisk
    ensures RiskLevelOf(score) == HighRisk ==> TrendOf(score) == Declining
  {
  }

  // ---------------------------------------------------------------------
  // AI insights
  // ---------------------------------------------------------------------

  datatype InsightType = Warning | Improvement | Achievement | Recommendation

  datatype Impact = HighImpact | MediumImpact | LowImpact

  /** The title and description of an insight; the documents text carries its vehicle count. */
  datatype InsightText =
    | SpeedComplianceIssue
    | ExcellentSpeedControl
    | DocumentsExpiringSoon(vehicleCount: nat)
    | ReduceHarshBraking
    | PhoneUsageWhileDriving
    | NoRecentViolations

  datatype AIInsight = AIInsight(insightType: InsightType, text: InsightText, impact: Impact, actionable: bool)

  const SpeedIssueInsight := AIInsight(Warning, SpeedComplianceIssue, HighImpact, true)
  const SpeedControlInsight := AIInsight(Achievement, ExcellentSpeedControl, LowImpact, false)
  const HarshBrakingInsight := AIInsight(Recommendation, ReduceHarshBraking, MediumImpact, true)
  const PhoneUsageInsight := AIInsight(Warning, PhoneUsageWhileDriving, HighImpact, true)
  const NoRecentViolationsInsight := AIInsight(Improvement, NoRecentViolations, LowImpact, false)

  function DocumentsInsight(count: nat): AIInsight
  {
    AIInsight(Warning, DocumentsExpiringSoon(count), MediumImpact, true)
  }

  predicate HasExpiringDocument(v: Vehicle, now: int)
  {
    DU.IsExpiringSoon(v.rcExpiry, now, DU.DefaultThreshold) ||
    DU.IsExpiringSoon(v.pucExpiry, now, DU.DefaultThreshold) ||
    DU.IsExpiringSoon(v.insuranceExpiry, now, DU.DefaultThreshold)
  }

  /** The number of vehicles with at least one document expiring within 30 days. */
  function ExpiringVehicleCount(vehicles: seq<Vehicle>, now: int): (n: nat)
    ensures n <= |vehicles|
  {
    if vehicles == [] then 0
    else
      ExpiringVehicleCount(vehicles[..|vehicles| - 1], now) +
      (if HasExpiringDocument(vehicles[|vehicles| - 1], now) then 1 else 0)
  }

  lemma {:induction false} ExpiringVehicleCountZero(vehicles: seq<Vehicle>, now: int)
    ensures ExpiringVehicleCount(vehicles, now) == 0 <==>
      forall i :: 0 <= i < |vehicles| ==> !HasExpiringDocument(vehicles[i], now)
  {
    if vehicles != [] {
      var init := vehicles[..|vehicles| - 1];
      assert forall i :: 0 <= i < |init| ==> init[i] == vehicles[i];
      ExpiringVehicleCountZero(init, now);
    }
  }

  function HarshBrakingOf(b: DrivingBehavior): real { b.harshBraking }

  function PhoneUsageOf(b: DrivingBehavior): real { b.phoneUsage }

  function SpeedInsights(f: SafetyFactors): (r: seq<AIInsight>)
    ensures |r| <= 1
    ensures forall x :: x in r ==> x.text.SpeedComplianceIssue? || x.text.ExcellentSpeedControl?
    ensures forall x :: x in r ==> (x.actionable <==> x.impact != LowImpact)
  {
    if f.speedCompliance < 70.0 then [SpeedIssueInsight]
    else if f.speedCompliance > 90.0 then [SpeedControlInsight]
    else []
  }

  function DocumentInsights(vehicles: seq<Vehicle>, now: int): (r: seq<AIInsight>)
    ensures |r| <= 1
    ensures forall x :: x in r ==> x.text.DocumentsExpiringSoon?
    ensures forall x :: x in r ==> (x.actionable <==> x.impact != LowImpact)
  {
    var expiring := ExpiringVehicleCount(vehicles, now);
    When(expiring > 0, DocumentsInsight(expiring))
  }

  function BehaviorInsights(behavior: seq<DrivingBehavior>): (r: seq<AIInsight>)
    ensures |r| <= 2
    ensures forall x :: x in r ==> x.text.ReduceHarshBraking? || x.text.PhoneUsageWhileDriving?
    ensures forall x :: x in r ==> (x.actionable <==> x.impact != LowImpact)
  {
    if |behavior| > 0 then
      When(MeanOf(behavior, HarshBrakingOf) > 3.0, HarshBrakingInsight) +
      When(MeanOf(behavior, PhoneUsageOf) > 1.0, PhoneUsageInsight)
    else []
  }

  function ViolationInsights(challans: seq<Challan>, threeMonthsAgo: int): (r: seq<AIInsight>)
    ensures |r| <= 1
    ensures forall x :: x in r ==> x.text.NoRecentViolations?
    ensures forall x :: x in r ==> (x.actionable <==> x.impact != LowImpact)
  {
    When(CountIssuedAfter(challans, threeMonthsAgo) == 0 && |challans| > 0, NoRecentViolationsInsight)
  }

  /** The insights generateAIInsights lists, in the order it pushes them. */
  function AIInsights(f: SafetyFactors, challans: seq<Challan>, behavior: seq<DrivingBehavior>,
                      vehicles: seq<Vehicle>, now: int, threeMonthsAgo: int): (r: seq<AIInsight>)
    ensures |r| <= 5
    ensures forall x :: x in r ==> (x.actionable <==> x.impact != LowImpact)
  {
    SpeedInsights(f) + DocumentInsights(vehicles, now) + BehaviorInsights(behavior) +
    ViolationInsights(challans, threeMonthsAgo)
  }

  /** generateAIInsights: one rule after another, each pushing at most one insight. */
  method GenerateAIInsights(f: SafetyFactors, challans: seq<Challan>, behavior: seq<DrivingBehavior>,
                            vehicles: seq<Vehicle>, now: int, threeMonthsAgo: int)
    returns (insights: seq<AIInsight>)
    ensures insights == AIInsights(f, challans, behavior, vehicles, now, threeMonthsAgo)
  {
    insights := [];
    if f.speedCompliance < 70.0 {
      insights := insights + [SpeedIssueInsight];
    } else if f.speedCompliance > 90.0 {
      insights := insights + [SpeedControlInsight];
    }
    assert insights == SpeedInsights(f);
    var expiringDocs := ExpiringVehicleCount(vehicles, now);
    if expiringDocs > 0 {
      insights := insights + [DocumentsInsight(expiringDocs)];
    }
    assert insights == SpeedInsights(f) + DocumentInsights(vehicles, now);
    ghost var before := insights;
    AppendNil(before);
    if |behavior| > 0 {
      var avgHarshBraking := MeanOf(behavior, HarshBrakingOf);
      var avgPhoneUsage := MeanOf(behavior, PhoneUsageOf);
      if avgHarshBraking > 3.0 {
        insights := insights + [HarshBrakingInsight];
      }
      assert insights == before + When(avgHarshBraking > 3.0, HarshBrakingInsight);
      AppendNil(insights);
      if avgPhoneUsage > 1.0 {
        insights := insights + [PhoneUsageInsight];
      }
      AppendAssoc(before, When(avgHarshBraking > 3.0, HarshBrakingInsight), When(avgPhoneUsage > 1.0, PhoneUsageInsight));
    }
    assert insights == before + BehaviorInsights(behavior);
    var recentViolations := CountIssuedAfter(challans, threeMonthsAgo);
    AppendNil(insights);
    if recentViolations == 0 && |challans| > 0 {
      insights := insights + [NoRecentViolationsInsight];
    }
  }

  /** At most five insights, and an insight asks for action exactly when its impact is not low. */
  lemma {:induction false} AIInsightsShape(f: SafetyFactors, challans: seq<Challan>, behavior: seq<DrivingBehavior>,
                        vehicles: seq<Vehicle>, now: int, threeMonthsAgo: int)
    ensures var r := AIInsights(f, challans, behavior, vehicles, now, threeMonthsAgo);
      |r| <= 5 && forall i :: 0 <= i < |r| ==> (r[i].actionable <==> r[i].impact != LowImpact)
  {
    var r := AIInsights(f, challans, behavior, vehicles, now, threeMonthsAgo);
    forall i | 0 <= i < |r|
      ensures r[i].actionable <==> r[i].impact != LowImpact
    {
      assert r[i] in r;
    }
  }

  /** The speed and document insights appear exactly under their rules' conditions. */
  lemma {:induction false} AIInsightsSpeedAndDocuments(f: SafetyFactors, challans: seq<Challan>, behavior: seq<DrivingBehavior>,
                                    vehicles: seq<Vehicle>, now: int, threeMonthsAgo: int)
    ensures var r := AIInsights(f, challans, behavior, vehicles, now, threeMonthsAgo);
      && (SpeedIssueInsight in r <==> f.speedCompliance < 70.0)
      && (SpeedControlInsight in r <==> f.speedCompliance > 90.0)
      && (DocumentsInsight(ExpiringVehicleCount(vehicles, now)) in r <==>
            exists i :: 0 <= i < |vehicles| && HasExpiringDocument(vehicles[i], now))
  {
    ExpiringVehicleCountZero(vehicles, now);
  }

  /** The behaviour and violation-history insights appear exactly under their rules' conditions. */
  lemma {:induction false} AIInsightsBehaviorAndViolations(f: SafetyFactors, challans: seq<Challan>, behavior: seq<DrivingBehavior>,
                                        vehicles: seq<Vehicle>, now: int, threeMonthsAgo: int)
    ensures var r := AIInsights(f, challans, behavior, vehicles, now, threeMonthsAgo);
      && (HarshBrakingInsight in r <==> |behavior| > 0 && MeanOf(behavior, HarshBrakingOf) > 3.0)
      && (PhoneUsageInsight in r <==> |behavior| > 0 && MeanOf(behavior, PhoneUsageOf) > 1.0)
      && (NoRecentViolationsInsight in r <==>
            challans != [] && forall i :: 0 <= i < |challans| ==> !IssuedAfter(challans[i], threeMonthsAgo))
  {
    CountIssuedAfterZero(challans, threeMonthsAgo);
  }

  // ---------------------------------------------------------------------
  // Recommendations
  // ---------------------------------------------------------------------

  datatype SafetyRecommendation =
    | UseCruiseControl
    | InstallSpeedMonitoringApp
    | PracticeSmoothDriving
    | TakeDefensiveDrivingCourse
    | SetRenewalReminders
    | KeepDigitalCopies
    | ReviewTrafficRules
    | UseNavigationReminders
    | AddressAIInsights

  /** An insight worth acting on: actionable and not of low impact. */
  predicate IsPriorityInsight(i: AIInsight)
  {
    i.actionable && i.impact != LowImpact
  }

  /** Every recommendation whose rule fires, in rule order, before the cut to five. */
  function AllRecommendations(f: SafetyFactors, insights: seq<AIInsight>): seq<SafetyRecommendation>
  {
    FactorRecommendations(f) + When(CountWhere(insights, IsPriorityInsight) > 0, AddressAIInsights)
  }

  /** The two tips of each factor below its bar: speed 80, behaviour 75, documents 90, traffic 85. */
  function FactorRecommendations(f: SafetyFactors): seq<SafetyRecommendation>
  {
    (if f.speedCompliance < 80.0 then [UseCruiseControl, InstallSpeedMonitoringApp] else []) +
    (if f.drivingBehavior < 75.0 then [PracticeSmoothDriving, TakeDefensiveDrivingCourse] else []) +
    (if f.documentCompliance < 90.0 then [SetRenewalReminders, KeepDigitalCopies] else []) +
    (if f.trafficRuleCompliance < 85.0 then [ReviewTrafficRules, UseNavigationReminders] else [])
  }

  /** `slice(0, 5)` */
  function TakeFive<T>(s: seq<T>): (r: seq<T>)
    ensures |r| == if |s| <= 5 then |s| else 5
    ensures r == s[..|r|]
  {
    if |s| <= 5 then s else s[..5]
  }

  /** generateRecommendations: rule pushes, then the first five. */
  method GenerateRecommendations(f: SafetyFactors, insights: seq<AIInsight>) returns (recommendations: seq<SafetyRecommendation>)
    ensures recommendations == TakeFive(AllRecommendations(f, insights))
  {
    var pushed: seq<SafetyRecommendation> := [];
    if f.speedCompliance < 80.0 {
      pushed := pushed + [UseCruiseControl];
      pushed := pushed + [InstallSpeedMonitoringApp];
    }
    ghost var speedTips := pushed;
    assert speedTips == if f.speedCompliance < 80.0 then [UseCruiseControl, InstallSpeedMonitoringApp] else [];
    if f.drivingBehavior < 75.0 {
      pushed := pushed + [PracticeSmoothDriving];
      pushed := pushed + [TakeDefensiveDrivingCourse];
    }
    assert pushed == speedTips + (if f.drivingBehavior < 75.0 then [PracticeSmoothDriving, TakeDefensiveDrivingCourse] else []);
    ghost var behaviorTips := pushed;
    if f.documentCompliance < 90.0 {
      pushed := pushed + [SetRenewalReminders];
      pushed := pushed + [KeepDigitalCopies];
    }
    assert pushed == behaviorTips + (if f.documentCompliance < 90.0 then [SetRenewalReminders, KeepDigitalCopies] else []);
    ghost var documentTips := pushed;
    if f.trafficRuleCompliance < 85.0 {
      pushed := pushed + [ReviewTrafficRules];
      pushed := pushed + [UseNavigationReminders];
    }
    assert pushed == documentTips + (if f.trafficRuleCompliance < 85.0 then [ReviewTrafficRules, UseNavigationReminders] else []);
    assert pushed == FactorRecommendations(f);
    var actionableInsights := Filter(insights, IsPriorityInsight);
    AppendNil(pushed);
    if |actionableInsights| > 0 {
      pushed := pushed + [AddressAIInsights];
    }
    recommendations := TakeFive(pushed);
  }

  /**
   * At most five recommendations, a prefix of the rule-ordered list; a speed
   * problem always yields its two tips first, and the insight reminder is
   * only ever given when some insight is actionable with more than low impact.
   */
  lemma {:induction false} RecommendationsRules(f: SafetyFactors, insights: seq<AIInsight>)
    ensures var all := AllRecommendations(f, insights);
      var r := TakeFive(all);
      && |r| <= 5
      && r == all[..|r|]
      && (f.speedCompliance < 80.0 ==> r[..2] == [UseCruiseControl, InstallSpeedMonitoringApp])
      && (AddressAIInsights in all <==> exists i :: 0 <= i < |insights| && IsPriorityInsight(insights[i]))
      && (AddressAIInsights in r ==> exists i :: 0 <= i < |insights| && IsPriorityInsight(insights[i]))
  {
    CountWhereZero(insights, IsPriorityInsight);
  }

  // ---------------------------------------------------------------------
  // The safety analysis
  // ---------------------------------------------------------------------

  datatype SafetyAnalysis = SafetyAnalysis(
    overallScore: int,
    factors: SafetyFactors,
    insights: seq<AIInsight>,
    riskLevel: RiskLevel,
    recommendations: seq<SafetyRecommendation>,
    trend: Trend)

  function Factors(vehicles: seq<Vehicle>, challans: seq<Challan>, behavior: seq<DrivingBehavior>,
                   now: int, sixMonthsAgo: int): (r: SafetyFactors)
    ensures 0.0 <= r.speedCompliance <= 100.0 && 0.0 <= r.trafficRuleCompliance <= 100.0
    ensures 0.0 <= r.documentCompliance <= 100.0 && 0.0 <= r.violationHistory <= 100.0
    ensures r.drivingBehavior >= 0.0
    ensures vehicles == [] && challans == [] && behavior == [] ==> r == SafetyFactors(85.0, 95.0, 85.0, 80.0, 100.0)
  {
    SafetyFactors(
      SpeedCompliance(behavior),
      TrafficRuleCompliance(challans, sixMonthsAgo),
      DocumentCompliance(vehicles, now) as real,
      DrivingBehaviorScore(behavior) as real,
      ViolationHistoryScore(challans))
  }

  /** calculateAISafetyScore as a value, for one customer's vehicles, challans and trips. */
  function AnalysisOf(vehicles: seq<Vehicle>, challans: seq<Challan>, behavior: seq<DrivingBehavior>,
                      now: int, sixMonthsAgo: int, threeMonthsAgo: int): (r: SafetyAnalysis)
    ensures |r.insights| <= 5 && |r.recommendations| <= 5
    ensures r.riskLevel == LowRisk <==> r.overallScore >= 80
    ensures r.trend == Declining ==> r.riskLevel != LowRisk
  {
    var factors := Factors(vehicles, challans, behavior, now, sixMonthsAgo);
    var overallScore := OverallScore(factors);
    var insights := AIInsights(factors, challans, behavior, vehicles, now, threeMonthsAgo);
    SafetyAnalysis(overallScore, factors, insights, RiskLevelOf(overallScore),
      TakeFive(AllRecommendations(factors, insights)), TrendOf(overallScore))
  }

  /** calculateAISafetyScore */
  method CalculateAISafetyScore(vehicles: seq<Vehicle>, challans: seq<Challan>, behavior: seq<DrivingBehavior>,
                                now: int, sixMonthsAgo: int, threeMonthsAgo: int)
    returns (analysis: SafetyAnalysis)
    ensures analysis == AnalysisOf(vehicles, challans, behavior, now, sixMonthsAgo, threeMonthsAgo)
  {
    var documentCompliance := CalculateDocumentCompliance(vehicles, now);
    var factors := SafetyFactors(
      SpeedCompliance(behavior),
      TrafficRuleCompliance(challans, sixMonthsAgo),
      documentCompliance as real,
      DrivingBehaviorScore(behavior) as real,
      ViolationHistoryScore(challans));
    var overallScore := OverallScore(factors);
    var insights := GenerateAIInsights(factors, challans, behavior, vehicles, now, threeMonthsAgo);
    var recommendations := GenerateRecommendations(factors, insights);
    analysis := SafetyAnalysis(overallScore, factors, insights, RiskLevelOf(overallScore),
      recommendations, TrendOf(overallScore));
  }

  /**
   * For trips with non-negative counts every factor lies in [0, 100], so the
   * overall score does too; the risk level and trend follow its bands.
   */
  lemma {:induction false} AnalysisBounds(vehicles: seq<Vehicle>, challans: seq<Challan>, behavior: seq<DrivingBehavior>,
                       now: int, sixMonthsAgo: int, threeMonthsAgo: int)
    requires forall i :: 0 <= i < |behavior| ==> CountsNonNegative(behavior[i])
    ensures var a := AnalysisOf(vehicles, challans, behavior, now, sixMonthsAgo, threeMonthsAgo);
      && FactorsInRange(a.factors)
      && 0 <= a.overallScore <= 100
      && (a.riskLevel == LowRisk <==> a.overallScore >= 80)
      && (a.trend == Declining <==> a.overallScore < 70)
      && |a.recommendations| <= 5
      && |a.insights| <= 5
  {
    DrivingBehaviorScoreBounds(behavior);
    var f := Factors(vehicles, challans, behavior, now, sixMonthsAgo);
    OverallScoreBounds(f);
    AIInsightsShape(f, challans, behavior, vehicles, now, threeMonthsAgo);
  }

  /** A customer with no trips, no challans and no vehicles gets the default factors and an overall 88. */
  lemma {:induction false} AnalysisWithoutRecords(now: int, sixMonthsAgo: int, threeMonthsAgo: int)
    ensures var a := AnalysisOf([], [], [], now, sixMonthsAgo, threeMonthsAgo);
      && a.factors == SafetyFactors(85.0, 95.0, 85.0, 80.0, 100.0)
      && a.overallScore == 88
      && a.riskLevel == LowRisk
      && a.trend == Improving
  {
    assert 85.0 * 0.25 + 95.0 * 0.25 + 85.0 * 0.15 + 80.0 * 0.25 + 100.0 * 0.1 == 87.75;
  }

  // ---------------------------------------------------------------------
  // Risk event prediction
  // ---------------------------------------------------------------------

  datatype PredictedEvent = RearEndCollisionRisk | DistractedDrivingRisk | SpeedingViolationLikely

  datatype PreventionTip = KeepFollowingDistance | UseHandsFree | UseSpeedLimitAlerts

  /** The tip pushed together with each predicted event. */
  function TipFor(e: PredictedEvent): PreventionTip
  {
    match e
    case RearEndCollisionRisk => KeepFollowingDistance
    case DistractedDrivingRisk => UseHandsFree
    case SpeedingViolationLikely => UseSpeedLimitAlerts
  }

  /** The risk points each predicted event adds. */
  function EventWeight(e: PredictedEvent): nat
  {
    match e
    case RearEndCollisionRisk => 25
    case DistractedDrivingRisk => 35
    case SpeedingViolationLikely => 20
  }

  function TotalWeight(events: seq<PredictedEvent>): nat
  {
    if events == [] then 0 else TotalWeight(events[..|events| - 1]) + EventWeight(events[|events| - 1])
  }

  /** sub occurs in s starting at position i. */
  predicate OccursAt(s: string, sub: string, i: int)
  {
    0 <= i && i + |sub| <= |s| && s[i..i + |sub|] == sub
  }

  /** `s.includes(sub)` */
  predicate Contains(s: string, sub: string)
  {
    exists i :: 0 <= i <= |s| - |sub| && OccursAt(s, sub, i)
  }

  /** A speeding challan: its violation type mentions "Speed" (case-sensitively). */
  predicate IsSpeedingChallan(c: Challan)
  {
    Contains(c.violationType, "Speed")
  }

  /** The events predicted from the trips' mean harsh braking and phone use. */
  function BehaviorEvents(behavior: seq<DrivingBehavior>): seq<PredictedEvent>
  {
    if |behavior| > 0 then
      When(MeanOf(behavior, HarshBrakingOf) > 4.0, RearEndCollisionRisk) +
      When(MeanOf(behavior, PhoneUsageOf) > 2.0, DistractedDrivingRisk)
    else []
  }

  /** The events predictRiskEvents pushes, in order. */
  function PredictedEvents(behavior: seq<DrivingBehavior>, challans: seq<Challan>): (r: seq<PredictedEvent>)
    ensures |r| <= 3
    ensures SpeedingViolationLikely in r <==> CountWhere(challans, IsSpeedingChallan) > 1
  {
    BehaviorEvents(behavior) + When(CountWhere(challans, IsSpeedingChallan) > 1, SpeedingViolationLikely)
  }

  /** One tip per event, each the event's own. */
  predicate TipsMatch(events: seq<PredictedEvent>, tips: seq<PreventionTip>)
  {
    |tips| == |events| && forall i :: 0 <= i < |events| ==> tips[i] == TipFor(events[i])
  }

  /** Pushing an event with its tip adds the event's weight and keeps the tips in step. */
  lemma {:induction false} PushEvent(events: seq<PredictedEvent>, tips: seq<PreventionTip>, e: PredictedEvent)
    requires TipsMatch(events, tips)
    ensures TipsMatch(events + [e], tips + [TipFor(e)])
    ensures TotalWeight(events + [e]) == TotalWeight(events) + EventWeight(e)
  {
    assert (events + [e])[..|events|] == events;
  }

  /** The trip half of predictRiskEvents: points, events and tips from mean harsh braking and phone use. */
  method PredictFromBehavior(behavior: seq<DrivingBehavior>)
    returns (score: int, predictedEvents: seq<PredictedEvent>, preventionTips: seq<PreventionTip>)
    ensures predictedEvents == BehaviorEvents(behavior)
    ensures TipsMatch(predictedEvents, preventionTips)
    ensures score == TotalWeight(predictedEvents) <= 60
  {
    score := 0;
    predictedEvents := [];
    preventionTips := [];
    if |behavior| > 0 {
      var avgHarshBraking := MeanOf(behavior, HarshBrakingOf);
      var avgPhoneUsage := MeanOf(behavior, PhoneUsageOf);
      if avgHarshBraking > 4.0 {
        PushEvent(predictedEvents, preventionTips, RearEndCollisionRisk);
        score := score + 25;
        predictedEvents := predictedEvents + [RearEndCollisionRisk];
        preventionTips := preventionTips + [KeepFollowingDistance];
      }
      if avgPhoneUsage > 2.0 {
        PushEvent(predictedEvents, preventionTips, DistractedDrivingRisk);
        score := score + 35;
        predictedEvents := predictedEvents + [DistractedDrivingRisk];
        preventionTips := preventionTips + [UseHandsFree];
      }
    }
  }

  /**
   * predictRiskEvents: accumulates the risk score with each predicted event
   * and its prevention tip, then caps the score at 100.
   */
  method PredictRiskEvents(behavior: seq<DrivingBehavior>, challans: seq<Challan>)
    returns (riskScore: int, predictedEvents: seq<PredictedEvent>, preventionTips: seq<PreventionTip>)
    ensures predictedEvents == PredictedEvents(behavior, challans)
    ensures TipsMatch(predictedEvents, preventionTips)
    ensures riskScore == TotalWeight(predictedEvents) <= 80
  {
    var score;
    score, predictedEvents, preventionTips := PredictFromBehavior(behavior);
    var speedingViolations := Filter(challans, IsSpeedingChallan);
    if |speedingViolations| > 1 {
      PushEvent(predictedEvents, preventionTips, SpeedingViolationLikely);
      score := score + 20;
      predictedEvents := predictedEvents + [SpeedingViolationLikely];
      preventionTips := preventionTips + [UseSpeedLimitAlerts];
    }
    riskScore := if score < 100 then score else 100;
  }

  /** Each event is predicted exactly under its rule, never twice, so at most three are. */
  lemma {:induction false} PredictedEventsRules(behavior: seq<DrivingBehavior>, challans: seq<Challan>)
    ensures var r := PredictedEvents(behavior, challans);
      && |r| <= 3
      && (forall i, j :: 0 <= i < j < |r| ==> r[i] != r[j])
      && (RearEndCollisionRisk in r <==> |behavior| > 0 && MeanOf(behavior, HarshBrakingOf) > 4.0)
      && (DistractedDrivingRisk in r <==> |behavior| > 0 && MeanOf(behavior, PhoneUsageOf) > 2.0)
      && (SpeedingViolationLikely in r <==> CountWhere(challans, IsSpeedingChallan) >= 2)
  {
  }

  // ---------------------------------------------------------------------
  // Company insights
  // ---------------------------------------------------------------------

  /** overallSafetyTrend: from the mean trip safety score; without trips the mean is NaN and the trend declining. */
  function CompanyTrend(allBehavior: seq<DrivingBehavior>): (t: Trend)
    ensures allBehavior == [] ==> t == Declining
  {
    if |allBehavior| == 0 then Declining
    else
      var avgSafetyScore := MeanOf(allBehavior, SafetyScoreOf);
      if avgSafetyScore >= 80.0 then Improving else if avgSafetyScore >= 70.0 then Stable else Declining
  }

  function SafetyScoreOf(b: DrivingBehavior): real { b.safetyScore }

  /** Uniformly high trip scores give an improving trend; scores of at least 70 never decline. */
  lemma {:induction false} CompanyTrendBands(allBehavior: seq<DrivingBehavior>)
    requires allBehavior != []
    ensures (forall i :: 0 <= i < |allBehavior| ==> allBehavior[i].safetyScore >= 80.0) ==>
      CompanyTrend(allBehavior) == Improving
    ensures (forall i :: 0 <= i < |allBehavior| ==> allBehavior[i].safetyScore >= 70.0) ==>
      CompanyTrend(allBehavior) != Declining
  {
    if forall i :: 0 <= i < |allBehavior| ==> allBehavior[i].safetyScore >= 80.0 {
      MeanOfAtLeast(allBehavior, SafetyScoreOf, 80.0);
    }
    if forall i :: 0 <= i < |allBehavior| ==> allBehavior[i].safetyScore >= 70.0 {
      MeanOfAtLeast(allBehavior, SafetyScoreOf, 70.0);
    }
  }

  /** An entry of the violation-type tally: the type, its count and its first-occurrence position. */
  datatype ViolationCount = ViolationCount(violationType: string, count: nat, position: nat)

  function CountKey(e: ViolationCount): real { e.count as real }

  function PositionOf(e: ViolationCount): int { e.position }

  function TypeOf(e: ViolationCount): string { e.violationType }

  function ViolationTypeOf(c: Challan): string { c.violationType }

  /** The violation type of every challan, in order. */
  function ViolationTypes(challans: seq<Challan>): seq<string>
  {
    Map(challans, ViolationTypeOf)
  }

  /** How many challans carry the violation type. */
  function TypeCount(challans: seq<Challan>, t: string): nat
  {
    multiset(ViolationTypes(challans))[t]
  }

  /** `Object.entries` of the tally: types in first-occurrence order with their counts. */
  function ViolationEntries(types: seq<string>): (r: seq<ViolationCount>)
    ensures |r| == |FirstOccurrences(types)|
    ensures forall i :: 0 <= i < |r| ==>
      r[i] == ViolationCount(FirstOccurrences(types)[i], multiset(types)[FirstOccurrences(types)[i]], i)
  {
    var keys := FirstOccurrences(types);
    seq(|keys|, i requires 0 <= i < |keys| => ViolationCount(keys[i], multiset(types)[keys[i]], i))
  }

  /** `slice(0, 3)` */
  function TopThree<T>(s: seq<T>): (r: seq<T>)
    ensures |r| == if |s| < 3 then |s| else 3
    ensures r == s[..|r|]
  {
    if |s| < 3 then s else s[..3]
  }

  /** The tally entries sorted by count, largest first, ties in first-occurrence order. */
  function SortedEntries(challans: seq<Challan>): seq<ViolationCount>
  {
    SortBy(ViolationEntries(ViolationTypes(challans)), CountKey)
  }

  /** riskAreas: the types of the first three sorted entries. */
  function RiskAreas(challans: seq<Challan>): (r: seq<string>)
    ensures |r| <= 3
  {
    Map(TopThree(SortedEntries(challans)), TypeOf)
  }

  const TopPerformers: seq<string> := ["Kavya Nair", "Priya Sharma", "Ananya Das"]

  datatype CompanyRecommendation =
    | SpeedMonitoringProgram
    | MonthlySafetyTraining
    | SafeDrivingIncentives
    | AIFleetMonitoring

  const CompanyRecommendations: seq<CompanyRecommendation> :=
    [SpeedMonitoringProgram, MonthlySafetyTraining, SafeDrivingIncentives, AIFleetMonitoring]

  datatype CompanyInsights = CompanyInsights(
    overallSafetyTrend: Trend,
    riskAreas: seq<string>,
    topPerformers: seq<string>,
    recommendations: seq<CompanyRecommendation>)

  /** `Object.entries(counts)` for a tally whose keys were inserted in the order given. */
  function EntriesOf(counts: map<string, nat>, keys: seq<string>): (r: seq<ViolationCount>)
    requires forall i :: 0 <= i < |keys| ==> keys[i] in counts
    ensures |r| == |keys|
    ensures forall i :: 0 <= i < |keys| ==> r[i] == ViolationCount(keys[i], counts[keys[i]], i)
  {
    seq(|keys|, i requires 0 <= i < |keys| => ViolationCount(keys[i], counts[keys[i]], i))
  }

  /** The tally's map and keys give exactly the entries of ViolationEntries. */
  lemma {:induction false} TallyEntries(types: seq<string>, counts: map<string, nat>, keys: seq<string>)
    requires keys == FirstOccurrences(types)
    requires forall x :: x in counts <==> x in types
    requires forall x :: x in counts ==> counts[x] == multiset(types)[x]
    ensures forall i :: 0 <= i < |keys| ==> keys[i] in counts
    ensures EntriesOf(counts, keys) == ViolationEntries(types)
  {
  }

  /** `entries.forEach(([type]) => riskAreas.push(type))` */
  method PushTypes(top: seq<ViolationCount>) returns (riskAreas: seq<string>)
    ensures |riskAreas| == |top|
    ensures forall i :: 0 <= i < |top| ==> riskAreas[i] == top[i].violationType
  {
    riskAreas := [];
    for i := 0 to |top|
      invariant |riskAreas| == i
      invariant forall k :: 0 <= k < i ==> riskAreas[k] == top[k].violationType
    {
      riskAreas := riskAreas + [top[i].violationType];
    }
  }

  /** generateCompanyInsights over the whole fleet's trips and challans. */
  method GenerateCompanyInsights(allBehavior: seq<DrivingBehavior>, allChallans: seq<Challan>)
    returns (insights: CompanyInsights)
    ensures insights == CompanyInsights(CompanyTrend(allBehavior), RiskAreas(allChallans), TopPerformers, CompanyRecommendations)
  {
    var overallSafetyTrend := CompanyTrend(allBehavior);
    var types := ViolationTypes(allChallans);
    var violationTypes, keys := Tally(types);
    TallyEntries(types, violationTypes, keys);
    var riskAreas := PushTypes(TopThree(SortBy(EntriesOf(violationTypes, keys), CountKey)));
    assert riskAreas == RiskAreas(allChallans);
    insights := CompanyInsights(overallSafetyTrend, riskAreas, TopPerformers, CompanyRecommendations);
  }

  /** Each sorted entry is a violation type that occurs, with its count. */
  lemma {:induction false} SortedEntriesCounts(challans: seq<Challan>)
    ensures var sorted := SortedEntries(challans);
      forall k :: 0 <= k < |sorted| ==>
        sorted[k].violationType in ViolationTypes(challans) &&
        sorted[k].count == TypeCount(challans, sorted[k].violationType)
  {
    var types := ViolationTypes(challans);
    var entries := ViolationEntries(types);
    var sorted := SortedEntries(challans);
    forall k | 0 <= k < |sorted|
      ensures sorted[k].violationType in types && sorted[k].count == TypeCount(challans, sorted[k].violationType)
    {
      assert sorted[k] in multiset(sorted);
      assert sorted[k] in entries;
    }
  }

  /** An entry is determined by its violation type. */
  lemma {:induction false} EntriesByType(types: seq<string>)
    ensures var entries := ViolationEntries(types);
      forall x, y :: x in entries && y in entries && x.violationType == y.violationType ==> x == y
  {
    var entries := ViolationEntries(types);
    FirstOccurrencesDistinct(types);
    forall x, y | x in entries && y in entries && x.violationType == y.violationType
      ensures x == y
    {
      var a :| 0 <= a < |entries| && entries[a] == x;
      var b :| 0 <= b < |entries| && entries[b] == y;
    }
  }

  /** Sorting keeps the tally's types distinct. */
  lemma {:induction false} SortedEntriesDistinct(challans: seq<Challan>)
    ensures var sorted := SortedEntries(challans);
      forall i, j :: 0 <= i < j < |sorted| ==> sorted[i].violationType != sorted[j].violationType
  {
    var types := ViolationTypes(challans);
    var keys := FirstOccurrences(types);
    var entries := ViolationEntries(types);
    var sorted := SortedEntries(challans);
    SortByOrdered(entries, CountKey, PositionOf);
    EntriesByType(types);
    forall i, j | 0 <= i < j < |sorted|
      ensures sorted[i].violationType != sorted[j].violationType
    {
      assert Precedes(sorted[i], sorted[j], CountKey, PositionOf);
      assert sorted[i] in multiset(sorted) && sorted[j] in multiset(sorted);
      assert sorted[i] in entries && sorted[j] in entries;
    }
  }

  /** Every violation type that occurs has its entry among the sorted ones. */
  lemma {:induction false} SortedEntriesCover(challans: seq<Challan>, t: string)
    requires t in ViolationTypes(challans)
    ensures exists k :: 0 <= k < |SortedEntries(challans)| && SortedEntries(challans)[k].violationType == t
  {
    var types := ViolationTypes(challans);
    var keys := FirstOccurrences(types);
    var entries := ViolationEntries(types);
    var a :| 0 <= a < |keys| && keys[a] == t;
    assert entries[a] in multiset(entries);
    assert entries[a] in multiset(SortedEntries(challans));
    assert entries[a] in SortedEntries(challans);
  }

  /**
   * The risk areas are distinct violation types that occur, three of them
   * unless fewer types occur.
   */
  lemma {:induction false} RiskAreasTopThree(challans: seq<Challan>)
    ensures var r := RiskAreas(challans);
      && |r| == (if |FirstOccurrences(ViolationTypes(challans))| < 3 then |FirstOccurrences(ViolationTypes(challans))| else 3)
      && (forall i :: 0 <= i < |r| ==> r[i] in ViolationTypes(challans))
      && (forall i, j :: 0 <= i < j < |r| ==> r[i] != r[j])
  {
    var sorted := SortedEntries(challans);
    var r := RiskAreas(challans);
    SortedEntriesCounts(challans);
    SortedEntriesDistinct(challans);
    assert forall i :: 0 <= i < |r| ==> r[i] == sorted[i].violationType;
  }

  /** The risk areas are listed by non-increasing count. */
  lemma {:induction false} RiskAreasByCount(challans: seq<Challan>)
    ensures var r := RiskAreas(challans);
      forall i, j :: 0 <= i < j < |r| ==> TypeCount(challans, r[i]) >= TypeCount(challans, r[j])
  {
    var sorted := SortedEntries(challans);
    var r := RiskAreas(challans);
    SortByOrdered(ViolationEntries(ViolationTypes(challans)), CountKey, PositionOf);
    SortedEntriesCounts(challans);
    forall i, j | 0 <= i < j < |r|
      ensures TypeCount(challans, r[i]) >= TypeCount(challans, r[j])
    {
      assert r[i] == sorted[i].violationType && r[j] == sorted[j].violationType;
      assert Precedes(sorted[i], sorted[j], CountKey, PositionOf);
    }
  }

  /** No violation type left out of the risk areas occurs more often than one listed. */
  lemma {:induction false} RiskAreasLeaveOutLess(challans: seq<Challan>, t: string, i: int)
    requires t in ViolationTypes(challans) && t !in RiskAreas(challans)
    requires 0 <= i < |RiskAreas(challans)|
    ensures TypeCount(challans, t) <= TypeCount(challans, RiskAreas(challans)[i])
  {
    var sorted := SortedEntries(challans);
    var r := RiskAreas(challans);
    SortByOrdered(ViolationEntries(ViolationTypes(challans)), CountKey, PositionOf);
    SortedEntriesCounts(challans);
    SortedEntriesCover(challans, t);
    var k :| 0 <= k < |sorted| && sorted[k].violationType == t;
    assert Precedes(sorted[i], sorted[k], CountKey, PositionOf);
  }
}
