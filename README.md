# Road-safety AI core, modelled in Dafny

This project models the analytical core of a road-safety and traffic-challan
platform. The core has six parts:

- **Driver-behaviour analyser** (`behavior_analyzer.dfy`). It walks a trip's
  telemetry and detects overspeeding, harsh braking, rapid acceleration,
  sharp turns, fatigue and distraction. From these it derives the
  aggressive, smooth, attention and overall scores, a risk class and
  driving tips.
- **Accident-risk predictor** (`accident_predictor.dfy`). It combines six
  factor scores into a risk score with fixed importance weights, explains
  the score with linear attributions, detects anomalies, and assigns a risk
  level, a time to risk, a confidence, the three most influential factors
  and advice.
- **Real-time alert system** (`alert_system.dfy`). A class holding a capped,
  newest-first alert history and a list of subscribers. It turns
  predictions and driving events into alerts and delivers each alert to
  every subscriber. It also marks alerts read, acknowledges them, clears
  them and answers queries.
- **Periodic safety report** (`report_generator.dfy`). It builds mean
  scores, counts by type and severity, a risk trend, achievements,
  improvement areas, recommendations, comparisons and hour-of-day insights.
- **Per-customer AI safety score** (`safety_scoring.dfy`). It computes five
  weighted factors from trips, challans (traffic fines) and vehicle
  documents, then derives insights, recommendations, risk-event prediction
  and fleet-wide insights.
- **Document expiry helpers** (`date_utils.dfy`).

`numeric.dfy` holds the JavaScript number idioms the core relies on:
`Math.round`, clamping, `reduce` sums and means, `filter(...).length`, the
key order of a counting record, and the stable `Array.prototype.sort`.

Each source function that computes a value becomes a Dafny function. Each
loop that accumulates, pushes or tallies becomes a method. Such a method is
proved equal to a specification function, and lemmas state what the source
promises about that function. The alert system, whose methods update the
object's fields in place, is a class. Its methods state the complete new
state of those fields and keep an invariant: the history stays newest first
and holds at most 100 alerts.

JavaScript numbers are `real`, except where the source only ever holds
integers. `Math.round(x)` is `floor(x + 0.5)`. Wherever the source reads the
clock, the clock is a parameter: the current instant, the local hour of
each timestamp, and the instant one, three or six calendar months earlier.
Human-readable labels, tips and advice are enumerations. Where the
behaviour analyser's braking and acceleration rate multiplies by 3.6 rather
than dividing, the model computes it exactly as the code does.

## Model

| member | source | states |
|---|---|---|
| BehaviorAnalyzer.DetectOverspeeding | lib/ai/driver-behavior-analyzer.ts:140-162 | an event, when reported, is of the overspeeding kind |
| BehaviorAnalyzer.OverspeedingFiresIff | lib/ai/driver-behavior-analyzer.ts:140-162 | fires exactly for speeds in (60, 80] or above 100 (the limit is chosen from the speed itself, so (80, 100] never fires); the event records the sample's speed and timestamp; at or below 80 km/h the severity is low or medium; it is critical exactly above 140 km/h |
| BehaviorAnalyzer.SpeedSeverity | lib/ai/driver-behavior-analyzer.ts:323-328 | critical exactly above 40 km/h over the limit, high exactly in (25, 40], low exactly at 15 or less |
| BehaviorAnalyzer.SpeedSeverityMonotone | lib/ai/driver-behavior-analyzer.ts:323-328 | a larger excess never gets a milder severity |
| BehaviorAnalyzer.ChangeRate | lib/ai/driver-behavior-analyzer.ts:165-168 | no rate exactly for equal timestamps; otherwise the rate times the elapsed seconds is the speed change times 3.6 |
| BehaviorAnalyzer.BrakingSeverity | lib/ai/driver-behavior-analyzer.ts:172 | never low; critical exactly above 12, medium exactly at 10 or less |
| BehaviorAnalyzer.DetectHarshBraking | lib/ai/driver-behavior-analyzer.ts:164-192 | an event, when reported, is of the harsh-braking kind |
| BehaviorAnalyzer.HarshBrakingFiresIff | lib/ai/driver-behavior-analyzer.ts:164-192 | equal timestamps never fire; otherwise it fires exactly when the rate `(current - previous) / seconds * 3.6` is below -8; the severity is never low and is critical exactly when the rate is below -12 |
| BehaviorAnalyzer.AccelerationSeverity | lib/ai/driver-behavior-analyzer.ts:201 | never critical; high exactly above 8, low exactly at 6 or less |
| BehaviorAnalyzer.DetectRapidAcceleration | lib/ai/driver-behavior-analyzer.ts:194-220 | an event, when reported, is of the rapid-acceleration kind |
| BehaviorAnalyzer.RapidAccelerationFiresIff | lib/ai/driver-behavior-analyzer.ts:194-220 | equal timestamps never fire; otherwise it fires exactly when the rate is above 4; the severity is never critical and is high exactly above 8 |
| BehaviorAnalyzer.BrakingAndAccelerationExclusive | lib/ai/driver-behavior-analyzer.ts:164-220 | one pair never yields both a braking and an acceleration event |
| BehaviorAnalyzer.DetectSharpTurn | lib/ai/driver-behavior-analyzer.ts:222-245 | an event, when reported, is of the sharp-turn kind |
| BehaviorAnalyzer.SharpTurnFiresIff | lib/ai/driver-behavior-analyzer.ts:222-245 | fires exactly for a present non-zero angle above 30 degrees at more than 40 km/h; the severity is high above 45 degrees and medium otherwise |
| BehaviorAnalyzer.PairEventsShape | lib/ai/driver-behavior-analyzer.ts:60-87 | one loop iteration pushes at most three events, each of one of the four pairwise kinds |
| BehaviorAnalyzer.CountType | lib/ai/driver-behavior-analyzer.ts:55-86 | the per-kind counter never exceeds the number of events |
| BehaviorAnalyzer.CountTypeZero | lib/ai/driver-behavior-analyzer.ts:55-86 | a kind's counter is zero exactly when no event of that kind was pushed |
| BehaviorAnalyzer.CountTypeAppend | lib/ai/driver-behavior-analyzer.ts:55-86 | counting a kind distributes over appending event lists |
| BehaviorAnalyzer.CountTypeOption | lib/ai/driver-behavior-analyzer.ts:64-86 | an optional detector result counts once for its own kind when present and never otherwise |
| BehaviorAnalyzer.HitOwnType | lib/ai/driver-behavior-analyzer.ts:64-86 | a detector that only reports its own kind is a hit for that kind exactly when it fires, and never for another |
| BehaviorAnalyzer.PushesCount | lib/ai/driver-behavior-analyzer.ts:64-86 | the events one iteration pushes hold, of each kind, one per detector of that kind that fired |
| BehaviorAnalyzer.PushesCounts | lib/ai/driver-behavior-analyzer.ts:64-86 | with each detector reporting only its own kind, one iteration pushes one event of each kind whose detector fired and nothing else |
| BehaviorAnalyzer.PairCounts | lib/ai/driver-behavior-analyzer.ts:60-87 | the events of one pair: one per kind exactly when its detector fired, never both braking and acceleration, and their number is the sum |
| BehaviorAnalyzer.PushesAppend | lib/ai/driver-behavior-analyzer.ts:64-86 | the four conditional pushes append the detector results in source order |
| BehaviorAnalyzer.PushIfPresent | lib/ai/driver-behavior-analyzer.ts:65-68 | `if (event) { events.push(event); count++ }` appends the event when present and raises the count by exactly that |
| BehaviorAnalyzer.ScanPair | lib/ai/driver-behavior-analyzer.ts:61-86 | one iteration appends the pair's events and raises each kind's counter by the number of events of that kind among them |
| BehaviorAnalyzer.ScanStep | lib/ai/driver-behavior-analyzer.ts:60-87 | one iteration keeps the loop state (events of the pairs seen so far, each counter equal to its kind's count) |
| BehaviorAnalyzer.DetectPairwiseEvents | lib/ai/driver-behavior-analyzer.ts:53-87 | the loop yields the events of all consecutive pairs in loop order, and each counter equals the number of events of its kind |
| BehaviorAnalyzer.DetectedEventsCounts | lib/ai/driver-behavior-analyzer.ts:53-87 | over the first k samples the event list is exactly the four per-kind counts added up; overspeeding, sharp turns, and braking plus acceleration each occur at most once per pair; at most three events per pair |
| BehaviorAnalyzer.DetectedEventsTypes | lib/ai/driver-behavior-analyzer.ts:53-87 | every detected event is of one of the four pairwise kinds |
| BehaviorAnalyzer.Speeds | lib/ai/driver-behavior-analyzer.ts:255 | `window.map(d => d.speed)`: same length, element by element |
| BehaviorAnalyzer.Steerings | lib/ai/driver-behavior-analyzer.ts:276 | `window.map(d => d.steeringAngle \|\| 0)`: same length, missing angles as 0 |
| BehaviorAnalyzer.DetectFatigue | lib/ai/driver-behavior-analyzer.ts:247-267 | the loop counts the inconsistent-speed and micro-sleep windows over i in [10, n-10) and reports fatigue on more than 20 or more than 5 of them; never with fewer than 100 samples |
| BehaviorAnalyzer.DistractedCountBound | lib/ai/driver-behavior-analyzer.ts:272-282 | at most one distracted window per loop position |
| BehaviorAnalyzer.DistractionBounds | lib/ai/driver-behavior-analyzer.ts:269-285 | with 10 samples or fewer nothing is reported; otherwise at most a tenth of the windows count |
| BehaviorAnalyzer.DetectDistractedDriving | lib/ai/driver-behavior-analyzer.ts:269-285 | the loop counts the windows with steering variance above 50 and speed variance above 30 and returns that count divided by 10, rounded down |
| BehaviorAnalyzer.AggressiveScore | lib/ai/driver-behavior-analyzer.ts:287-300 | the weighted event total times 5, capped at 100, lies in [0, 100] |
| BehaviorAnalyzer.EventPenalty | lib/ai/driver-behavior-analyzer.ts:309 | two points per event, capped at 30 |
| BehaviorAnalyzer.OverallScore | lib/ai/driver-behavior-analyzer.ts:302-312 | the blended score less the event penalty, clamped to [0, 100] |
| BehaviorAnalyzer.DetermineRiskLevel | lib/ai/driver-behavior-analyzer.ts:314-321 | below 40 always dangerous; a risky trip scores in [40, 60), a moderate one in [60, 80), a safe one at least 80 |
| BehaviorAnalyzer.DangerousIff | lib/ai/driver-behavior-analyzer.ts:314-321 | dangerous exactly when some event is critical or the score is below 40; safe exactly when no event is critical and the score is at least 80 |
| BehaviorAnalyzer.RuleTip | lib/ai/driver-behavior-analyzer.ts:347-373 | the tip of rule k sits at position k of the rule order |
| BehaviorAnalyzer.TipsFrom | lib/ai/driver-behavior-analyzer.ts:345-375 | the tips of rules k..6 that hold, each once, in rule order |
| BehaviorAnalyzer.Recommendations | lib/ai/driver-behavior-analyzer.ts:336-376 | a tip is present exactly when its rule holds, at most once, in the fixed rule order, at most seven |
| BehaviorAnalyzer.RecommendationRules | lib/ai/driver-behavior-analyzer.ts:347-373 | the training tip is given exactly for risky and dangerous trips, the break tip exactly with fatigue, the speed tip exactly above five overspeeding events |
| BehaviorAnalyzer.Analysis | lib/ai/driver-behavior-analyzer.ts:52-138 | the overall score lies in [0, 100], a safe trip scores at least 80, and a tip is given exactly when its rule holds for the reported counts, flags and level |
| BehaviorAnalyzer.AnalyzeBehavior | lib/ai/driver-behavior-analyzer.ts:52-138 | the method's result is the analysis specification of the telemetry |
| BehaviorAnalyzer.AnalysisShape | lib/ai/driver-behavior-analyzer.ts:52-138 | the event list's length is the sum of the four reported counts, at most three per pair, braking plus acceleration at most one per pair, empty for fewer than two samples; the overall and aggressive scores lie in [0, 100]; smooth is 100 less aggressive; attention is 50 with fatigue and 90 without; phone use is never reported; no fatigue below 100 samples |
| BehaviorAnalyzer.NoEventsIsSafe | lib/ai/driver-behavior-analyzer.ts:99-109 | a trip without pairwise events scores 97 (85 with fatigue) and is rated safe |
| BehaviorAnalyzer.CriticalEventIsDangerous | lib/ai/driver-behavior-analyzer.ts:314-317 | a single critical event makes the trip dangerous whatever the score |
| BehaviorAnalyzer.AnalysisRecommendations | lib/ai/driver-behavior-analyzer.ts:110-118 | the analysis's tips are the tip rules applied to the reported counts, fatigue, distraction and risk level |
| BehaviorAnalyzer.AnalysisTips | lib/ai/driver-behavior-analyzer.ts:110-118 | on the reported result: the training tip exactly for risky and dangerous trips, the break tip exactly when fatigue is reported, the speed tip exactly above five overspeeding incidents |
| AccidentPredictor.FactorKeysComplete | lib/ai/accident-predictor.ts:101-108 | the six factor keys, each once, in the order `Object.entries` visits them |
| AccidentPredictor.SpeedRisk | lib/ai/accident-predictor.ts:144-153 | the speed risk is one of the five steps 0.1, 0.3, 0.6, 0.85, 0.95 |
| AccidentPredictor.SpeedRiskDropsPastEighty | lib/ai/accident-predictor.ts:144-153 | the risk is not monotone in speed: 80 km/h (against the 60 limit) is 0.85, 81 km/h (against the 100 limit) is 0.3 |
| AccidentPredictor.Last | lib/ai/accident-predictor.ts:164 | `slice(-n)`: the last n elements in order, or all of them when there are fewer |
| AccidentPredictor.MagnitudeAbove | lib/ai/accident-predictor.ts:158-173 | for the non-negative root m of the squared norm, `m > c` is the same test as `norm² > c²` |
| AccidentPredictor.AccelerationRisk | lib/ai/accident-predictor.ts:155-175 | the acceleration risk is one of 0.1, 0.2, 0.4, 0.6, 0.8, and it is 0.1 exactly when there is no recent sample |
| AccidentPredictor.LocationRiskIn | lib/ai/accident-predictor.ts:177-201 | the location risk is one of 0.9, 0.7, 0.5, 0.3 (a zone's level) or 0.2 (no zone) |
| AccidentPredictor.ZoneLevelRisk | lib/ai/accident-predictor.ts:187-196 | a zone's level maps to 0.9, 0.7, 0.5 or 0.3 |
| AccidentPredictor.FirstZoneDecides | lib/ai/accident-predictor.ts:177-201 | the first zone in table order that contains the point decides the risk; with no zone containing it the risk is 0.2 |
| AccidentPredictor.SilkBoardCentre | lib/ai/accident-predictor.ts:48-58 | at the centre of Silk Board Junction, the first zone of the table, the location risk is that of a high zone, 0.7 |
| AccidentPredictor.CalculateLocationRisk | lib/ai/accident-predictor.ts:177-201 | the early-return loop over the zone table returns the first-containing-zone risk |
| AccidentPredictor.TimeRisk | lib/ai/accident-predictor.ts:203-210 | one of 0.7, 0.6, 0.4, 0.3; it is 0.7 exactly at night (22:00 to 05:59) |
| AccidentPredictor.BehaviorRisk | lib/ai/accident-predictor.ts:216-229 | one of 0.9, 0.7, 0.6, 0.5, 0.3; the variance rule (0.6) needs more than 20 recent samples |
| AccidentPredictor.BehaviorRiskSevereEvents | lib/ai/accident-predictor.ts:217-221 | one high or critical event already puts the behaviour risk at 0.5 or more |
| AccidentPredictor.Importance | lib/ai/accident-predictor.ts:92-99 | every factor weighs between 0.1 and 0.25 |
| AccidentPredictor.WeightedSum | lib/ai/accident-predictor.ts:231-240 | the sum accumulated in key order is 0.25 speed + 0.2 acceleration + 0.15 location + 0.1 time + 0.1 weather + 0.2 behaviour |
| AccidentPredictor.ImportanceSumsToOne | lib/ai/accident-predictor.ts:92-99 | the importance weights add up to one |
| AccidentPredictor.WeightedSumBounds | lib/ai/accident-predictor.ts:231-240 | factors in [0, 1] give a weighted sum in [0, 1], so the final clamp never changes it |
| AccidentPredictor.WeightedSumMonotone | lib/ai/accident-predictor.ts:231-240 | raising any factor never lowers the weighted sum |
| AccidentPredictor.CalculateWeightedRiskScore | lib/ai/accident-predictor.ts:231-240 | the accumulator loop over the factor entries, then the clamp, gives the clamped weighted sum |
| AccidentPredictor.ShapSumsToScoreMinusBaseline | lib/ai/accident-predictor.ts:242-256 | the six attributions add up to the unclamped weighted sum minus the baseline 0.3 |
| AccidentPredictor.Shap | lib/ai/accident-predictor.ts:250-253 | an attribution is positive exactly when its factor is above the baseline, and zero exactly at it |
| AccidentPredictor.CalculateShapValues | lib/ai/accident-predictor.ts:242-256 | the loop fills a record holding every key, each with `(value - 0.3) * importance` |
| AccidentPredictor.DetectAnomaly | lib/ai/accident-predictor.ts:258-259 | fewer than 30 recent samples never yield an anomaly |
| AccidentPredictor.AnomalyPriority | lib/ai/accident-predictor.ts:258-285 | with 30 or more samples, the first test that holds decides the type: speed deviation above 40, else magnitude above 12, else speed variance above 200 |
| AccidentPredictor.LevelOf | lib/ai/accident-predictor.ts:292-295 | critical exactly from 0.85, low exactly below 0.5 |
| AccidentPredictor.DetermineRiskLevel | lib/ai/accident-predictor.ts:287-296 | without an anomaly the level is the threshold level of the score; for a non-negative score an anomaly never gives a lower level |
| AccidentPredictor.LevelMonotone | lib/ai/accident-predictor.ts:292-295 | a higher score never gives a lower level |
| AccidentPredictor.AnomalyNeverLowersLevel | lib/ai/accident-predictor.ts:287-296 | for a non-negative score an anomaly never lowers the level |
| AccidentPredictor.AnomalyRaisesLevel | lib/ai/accident-predictor.ts:287-296 | a score of 0.66 is medium alone and critical with an anomaly (0.66 × 1.3 = 0.858) |
| AccidentPredictor.TimeToRisk | lib/ai/accident-predictor.ts:298-303 | seconds to risk is one of 300, 60, 20, 5 |
| AccidentPredictor.TimeToRiskAntitone | lib/ai/accident-predictor.ts:298-303 | a riskier score never leaves more time |
| AccidentPredictor.Confidence | lib/ai/accident-predictor.ts:305-317 | confidence lies in [0.5, 0.85] and is 0.85 exactly with 20 or more samples and no anomaly |
| AccidentPredictor.CalculateConfidenceScore | lib/ai/accident-predictor.ts:305-317 | the decremented-then-clamped local value equals that confidence |
| AccidentPredictor.Entries | lib/ai/accident-predictor.ts:332-338 | six entries, in key order, each with the absolute attribution and the factor's own value |
| AccidentPredictor.IdentifyTopFactors | lib/ai/accident-predictor.ts:319-343 | exactly three top factors, since all six factors always have an entry (their order and values are stated by the lemmas below) |
| AccidentPredictor.SortedEntries | lib/ai/accident-predictor.ts:332-339 | the sorted entries are the same six entries, largest impact first, ties in key order |
| AccidentPredictor.TopFactorsOrdered | lib/ai/accident-predictor.ts:332-340 | the top factors come largest impact first, ties in key order, and are three different factors |
| AccidentPredictor.TopFactorsValues | lib/ai/accident-predictor.ts:333-337 | each top factor carries the absolute attribution and the factor's own value |
| AccidentPredictor.TopFactorsMaximal | lib/ai/accident-predictor.ts:339-340 | no factor left out has a larger impact than the third one chosen |
| AccidentPredictor.TopFactorsAreTop | lib/ai/accident-predictor.ts:319-343 | the conjunction of the three properties above |
| AccidentPredictor.AdviceStep | lib/ai/accident-predictor.ts:357-375 | one more top factor appends its advice after what the earlier ones gave |
| AccidentPredictor.PushFactorAdvice | lib/ai/accident-predictor.ts:358-374 | the `switch` on a factor name appends that factor's advice (none for weather) |
| AccidentPredictor.PushAnomalyAdvice | lib/ai/accident-predictor.ts:377-383 | a speed or acceleration anomaly appends its advice; a pattern anomaly or none appends nothing |
| AccidentPredictor.Recommendations | lib/ai/accident-predictor.ts:345-390 | never empty; opens with the urgent lines of the level; ends with the anomaly's advice when there is one |
| AccidentPredictor.GenerateRecommendations | lib/ai/accident-predictor.ts:345-390 | the pushes give the urgent pair, then the factor advice in top-factor order, then the anomaly advice, then the fallback when empty |
| AccidentPredictor.FactorsAdviceNotUrgent | lib/ai/accident-predictor.ts:357-375 | factor advice never contains the urgent lines or the fallback line |
| AccidentPredictor.FactorsAdviceLength | lib/ai/accident-predictor.ts:357-375 | every top factor except weather gives exactly one line |
| AccidentPredictor.RecommendationsShape | lib/ai/accident-predictor.ts:345-390 | the advice is never empty; it opens with the immediate-action and pull-over lines exactly for high and critical levels; the fallback appears only as the sole line |
| AccidentPredictor.AdviceFromDistinctFactors | lib/ai/accident-predictor.ts:357-387 | three distinct top factors give at least two lines and never the fallback |
| AccidentPredictor.WeatherAtMostOnce | lib/ai/accident-predictor.ts:332-340 | three distinct factors hold weather at most once |
| AccidentPredictor.Prediction | lib/ai/accident-predictor.ts:80-142 | the risk score lies in [0, 1], an anomaly is flagged exactly when it has a type, and the advice is never empty |
| AccidentPredictor.PredictAccidentRisk | lib/ai/accident-predictor.ts:80-142 | the method's result is the prediction specification |
| AccidentPredictor.ContributingFactorsInUnitInterval | lib/ai/accident-predictor.ts:85-108 | every factor the predictor computes lies in [0, 1] |
| AccidentPredictor.PredictionScore | lib/ai/accident-predictor.ts:110-120 | the score is the unclamped weighted sum, in [0, 1]; time to risk reads the same score; the level is never below the plain threshold level; with fewer than 30 samples there is no anomaly and the level is the plain one; confidence lies in [0.5, 0.85] |
| AccidentPredictor.PredictionAdvice | lib/ai/accident-predictor.ts:122-124 | a prediction has three top factors, at least two advice lines and never the fallback |
| AccidentPredictor.TwentySampleWindow | components/ai/live-telemetry-monitor.tsx:76-78 | with the live monitor's 20-sample window no anomaly is ever reported and confidence is the full 0.85 |
| AlertSystem.RiskLevelSeverity | lib/ai/real-time-alert-system.ts:238-249 | the alert severity has the same rank as the prediction's risk level (low→info, medium→warning, high→danger, critical→critical) |
| AlertSystem.EventSeverity | lib/ai/real-time-alert-system.ts:251-262 | the alert severity has the same rank as the driving event's severity |
| AlertSystem.RecommendedAction | lib/ai/real-time-alert-system.ts:264-281 | a critical alert always advises stopping safely; the "drive carefully" advice is given exactly for non-critical rapid-acceleration and phone-usage alerts |
| AlertSystem.TopFactorNames | lib/ai/real-time-alert-system.ts:88-89 | one primary factor per top factor, in the same order |
| AlertSystem.AccidentRiskAlert | lib/ai/real-time-alert-system.ts:85-124 | an unread, unacknowledged accident-risk alert with the given id, time and place, its severity ranked as the prediction's level |
| AlertSystem.AnomalyAlert | lib/ai/real-time-alert-system.ts:126-164 | an unread, unacknowledged anomaly alert with the given id, time and place, always a warning |
| AlertSystem.DrivingEventAlert | lib/ai/real-time-alert-system.ts:166-220 | an unread, unacknowledged alert of the event's type, time and place, its severity ranked as the event's |
| AlertSystem.CustomAlert | lib/ai/real-time-alert-system.ts:54-83 | an unread, unacknowledged alert of the given type, severity and place, advising to stop safely when critical |
| AlertSystem.PredictionAlerts | lib/ai/real-time-alert-system.ts:35-45 | at most two alerts, numbered consecutively from the first id |
| AlertSystem.EventAlerts | lib/ai/real-time-alert-system.ts:47-52 | at most one alert, with the given id and severity danger or critical |
| AlertSystem.PredictionAlertsShape | lib/ai/real-time-alert-system.ts:35-45 | a prediction yields an accident-risk alert exactly when its level is high or critical (severity danger, or critical exactly for a critical level) and an anomaly alert (severity warning, always last) exactly when an anomaly was detected; ids are consecutive from the next free id and every new alert is unread and unacknowledged |
| AlertSystem.EventAlertsShape | lib/ai/real-time-alert-system.ts:47-52 | a driving event yields one alert exactly when its severity is high or critical; that alert carries the event's type, timestamp, location and explanation, is critical exactly for a critical event and starts unread and unacknowledged |
| AlertSystem.Pushed | lib/ai/real-time-alert-system.ts:222-227 | the new alert goes to the front, older alerts shift back by one, and the list is cut to at most 100 |
| AlertSystem.EmitAll | lib/ai/real-time-alert-system.ts:222-227 | emitting into a non-empty history, or emitting at least one alert, leaves a non-empty history |
| AlertSystem.EmitAllSnoc | lib/ai/real-time-alert-system.ts:222-227 | emitting a batch and then one more alert equals pushing that alert onto the batch's result |
| AlertSystem.Fanout | lib/ai/real-time-alert-system.ts:229-235 | each subscriber, in registration order, receives the emitted alert exactly once |
| AlertSystem.FanoutAllSnoc | lib/ai/real-time-alert-system.ts:229-235 | the deliveries of a batch plus one alert are the batch's deliveries followed by that alert's |
| AlertSystem.DeliveriesSnoc | lib/ai/real-time-alert-system.ts:229-235 | appending a batch's deliveries to a log commutes with extending the batch by one alert |
| AlertSystem.PushedNewestFirst | lib/ai/real-time-alert-system.ts:222-227 | pushing an alert with the next id keeps the history capped at 100 and ordered newest first by strictly decreasing id |
| AlertSystem.EmitAllNewestFirst | lib/ai/real-time-alert-system.ts:222-227 | emitting alerts with consecutive fresh ids keeps the history newest first, and the last one emitted ends up at the front |
| AlertSystem.FirstIndex | lib/ai/real-time-alert-system.ts:302 | `find` returns the first alert with the id, or nothing when no alert has it |
| AlertSystem.FirstIndexAt | lib/ai/real-time-alert-system.ts:302 | the first position holding the id (or the end) is what the search returns |
| AlertSystem.FlagUpdateNewestFirst | lib/ai/real-time-alert-system.ts:301-314 | changing the flags of an alert in place keeps the history ordering invariant |
| AlertSystem.MarkedRead | lib/ai/real-time-alert-system.ts:301-306 | same length and ids; only alerts with that id change, no read alert becomes unread, and the first alert with the id is read |
| AlertSystem.Acknowledged | lib/ai/real-time-alert-system.ts:308-314 | same length and ids; only alerts with that id change, no acknowledged alert loses the flag, and the first alert with the id is read and acknowledged |
| AlertSystem.MarkedReadEffect | lib/ai/real-time-alert-system.ts:301-306 | marking read touches only the first alert with the id and only its read flag; an unknown id changes nothing; the unread count drops by one exactly when that alert was unread |
| AlertSystem.AcknowledgedEffect | lib/ai/real-time-alert-system.ts:308-314 | acknowledging sets both flags on the first alert with the id and nowhere else; an unknown id changes nothing |
| AlertSystem.Without | lib/ai/real-time-alert-system.ts:30-32 | the filtered list is no longer than the original and no longer holds the callback |
| AlertSystem.WithoutEffect | lib/ai/real-time-alert-system.ts:30-32 | unsubscribing removes every registration of that callback and keeps every other callback's registrations, in number |
| AlertSystem.WithoutAppend | lib/ai/real-time-alert-system.ts:30-32 | the unsubscribe filter distributes over concatenation |
| AlertSystem.RealTimeAlertSystem.constructor | lib/ai/real-time-alert-system.ts:23-25 | a new system has no alerts and no subscribers |
| AlertSystem.RealTimeAlertSystem.Subscribe | lib/ai/real-time-alert-system.ts:27-29 | the callback is appended to the subscriber list; nothing else changes |
| AlertSystem.RealTimeAlertSystem.Unsubscribe | lib/ai/real-time-alert-system.ts:30-32 | the subscriber list loses exactly that callback; nothing else changes |
| AlertSystem.RealTimeAlertSystem.FreshId | lib/ai/real-time-alert-system.ts:283-285 | each alert id is new and larger than every id handed out before |
| AlertSystem.RealTimeAlertSystem.Emit | lib/ai/real-time-alert-system.ts:222-236 | the alert is pushed onto the capped history and delivered to every current subscriber in order; the history stays newest first |
| AlertSystem.RealTimeAlertSystem.ProcessAccidentPrediction | lib/ai/real-time-alert-system.ts:35-45 | the history and the delivery log become those of emitting the prediction's alerts in order, each with a fresh id |
| AlertSystem.RealTimeAlertSystem.ProcessDrivingEvent | lib/ai/real-time-alert-system.ts:47-52 | the history and the delivery log become those of emitting the event's alert, if any |
| AlertSystem.RealTimeAlertSystem.CreateCustomAlert | lib/ai/real-time-alert-system.ts:54-83 | the returned alert is built from the parameters with a fresh id, is pushed onto the history and delivered to every subscriber |
| AlertSystem.RealTimeAlertSystem.MarkAlertAsRead | lib/ai/real-time-alert-system.ts:301-306 | the history becomes the marked-read history; subscribers and deliveries are untouched |
| AlertSystem.RealTimeAlertSystem.AcknowledgeAlert | lib/ai/real-time-alert-system.ts:308-314 | the history becomes the acknowledged history; subscribers and deliveries are untouched |
| AlertSystem.RealTimeAlertSystem.ClearAlerts | lib/ai/real-time-alert-system.ts:316-318 | the history is emptied; subscribers and deliveries are untouched |
| AlertSystem.FilterKeepsIdsDescending | lib/ai/real-time-alert-system.ts:291-296 | filtering a list ordered by strictly decreasing id keeps it so |
| AlertSystem.RealTimeAlertSystem.GetAlerts | lib/ai/real-time-alert-system.ts:287-299 | returns exactly the stored alerts that pass the unread and severity filters, in history order (newest first, by strictly decreasing id, so each once); with no filter, the whole history |
| AlertSystem.RealTimeAlertSystem.GetUnreadCount | lib/ai/real-time-alert-system.ts:320-322 | the count is zero exactly when every alert is read, and equals the number of alerts the unread filter returns |
| AlertSystem.RealTimeAlertSystem.GetCriticalAlerts | lib/ai/real-time-alert-system.ts:324-326 | returns exactly the critical alerts not yet acknowledged |
| ReportGenerator.CalculatePeriod | lib/ai/safety-report-generator.ts:162-179 | the period ends now and starts one day, seven days or one calendar month earlier, by report type |
| ReportGenerator.OverallSafetyScore | lib/ai/safety-report-generator.ts:181-186 | 100 without analyses; otherwise the mean of the analyses' scores rounded to the nearest integer (within half a point) |
| ReportGenerator.OverallSafetyScoreBounds | lib/ai/safety-report-generator.ts:181-186 | analysis scores within [0, 100] give an overall score within [0, 100] |
| ReportGenerator.ScoreChange | lib/ai/safety-report-generator.ts:97-99 | 0 when the previous score is absent or zero (falsy); otherwise overall minus previous |
| ReportGenerator.PreviousOrCurrent | lib/ai/safety-report-generator.ts:132 | the previous score when it is truthy, the current overall score otherwise |
| ReportGenerator.SafeDrivingPercentage | lib/ai/safety-report-generator.ts:189-193 | a percentage within [0, 100]: 100 without events, 0 when no event is low-severity, 100 when all are |
| ReportGenerator.PercentageBounds | lib/ai/safety-report-generator.ts:193 | a rounded share of a whole lies within [0, 100] and hits 0 and 100 at the ends |
| ReportGenerator.RiskLevels | lib/ai/safety-report-generator.ts:195 | the predictions' risk levels, position by position |
| ReportGenerator.MostCommonRiskLevel | lib/ai/safety-report-generator.ts:462-465 | 'low' without predictions; otherwise a level that occurs and has the largest count |
| ReportGenerator.GenerateSummary | lib/ai/safety-report-generator.ts:188-204 | the incident count is the number of events, critical events never exceed it, the percentage lies in [0, 100], and the average risk level is 'low' without predictions and one of the predictions' levels otherwise |
| ReportGenerator.TypeCountSumBound | lib/ai/safety-report-generator.ts:206-222 | the six per-type counts add up to at most the number of events |
| ReportGenerator.AggregateDrivingBehavior | lib/ai/safety-report-generator.ts:206-222 | the per-type counts never exceed the events in total, and any overspeeding event makes the overspeeding count positive |
| ReportGenerator.RiskScores | lib/ai/safety-report-generator.ts:234 | the predictions' risk scores, position by position |
| ReportGenerator.AverageRiskScore | lib/ai/safety-report-generator.ts:233-235 | 0 without predictions, else the mean score |
| ReportGenerator.AverageRiskScoreBounds | lib/ai/safety-report-generator.ts:233-235 | scores within [0, 1] give a mean within [0, 1] |
| ReportGenerator.TrendOf | lib/ai/safety-report-generator.ts:244-245 | stable exactly when the recent risk lies within 0.1 of the older risk |
| ReportGenerator.RiskTrendAsWritten | lib/ai/safety-report-generator.ts:237-246 | the trend as written (each half divided by the other half's length): stable with fewer than two predictions |
| ReportGenerator.RiskTrend | lib/ai/safety-report-generator.ts:237-246 | the corrected trend (each half averaged over its own length): stable with fewer than two predictions |
| ReportGenerator.RiskTrendAsWrittenFlatScores | lib/ai/safety-report-generator.ts:237-246 | three predictions of equal risk 0.5 read as improving as written and as stable once corrected |
| ReportGenerator.RiskTrendAsWrittenReversed | lib/ai/safety-report-generator.ts:237-246 | risks 0.5, 0.3, 0.3 (newest first) read as improving as written and as worsening once corrected |
| ReportGenerator.RiskTrendAsWrittenEvenLength | lib/ai/safety-report-generator.ts:237-246 | for an even number of predictions the written and the corrected trend agree |
| ReportGenerator.RiskTrendFlat | lib/ai/safety-report-generator.ts:237-246 | predictions of one constant risk give a stable trend |
| ReportGenerator.RiskTrendImproving | lib/ai/safety-report-generator.ts:237-246 | recent risks all more than 0.1 below the older ones give an improving trend |
| ReportGenerator.RiskTrendWorsening | lib/ai/safety-report-generator.ts:237-246 | recent risks all more than 0.1 above the older ones give a worsening trend |
| ReportGenerator.AnalyzeRisks | lib/ai/safety-report-generator.ts:224-254 | the high-risk trips and the high/critical predictions are counts within their inputs; no predictions give average 0; the trend is the as-written one, stable with fewer than two predictions |
| ReportGenerator.Achievements | lib/ai/safety-report-generator.ts:256-301 | at most four achievements, each earned now; none below score 85 with at most 5 trips |
| ReportGenerator.AchievementsRules | lib/ai/safety-report-generator.ts:256-301 | at most four achievements, in rule order; Safety Champion exactly from score 90, Speed Guardian exactly with no overspeeding and more than 5 trips, Smooth Operator exactly with no harsh braking and more than 5 trips, Consistent Driver exactly with at least 20 trips and score 85 |
| ReportGenerator.AchievementTitles | lib/ai/safety-report-generator.ts:256-301 | the achievement titles are exactly the titles of the satisfied rules, in the order the rules are checked |
| ReportGenerator.IdentifyAchievements | lib/ai/safety-report-generator.ts:256-301 | the pushed list equals the achievements of the rules |
| ReportGenerator.AreaScore | lib/ai/safety-report-generator.ts:313 | `max(0, 100 - count * penalty)`: within [0, 100] |
| ReportGenerator.ImprovementAreas | lib/ai/safety-report-generator.ts:303-353 | at most three areas; none when no threshold is passed |
| ReportGenerator.ImprovementAreasRules | lib/ai/safety-report-generator.ts:303-353 | at most three areas; speed management exactly above 5 overspeeding incidents, smooth braking exactly above 3 harsh brakings, risk awareness exactly above 2 high-risk trips; every area's current score lies below its target |
| ReportGenerator.AreasOfImprovement | lib/ai/safety-report-generator.ts:303-353 | the area names are exactly those of the exceeded thresholds, in order |
| ReportGenerator.IdentifyImprovementAreas | lib/ai/safety-report-generator.ts:303-353 | the pushed list equals the areas of the exceeded thresholds |
| ReportGenerator.AIRecommendations | lib/ai/safety-report-generator.ts:355-405 | at most three recommendations, each of high or critical priority, critical only for a worsening trend |
| ReportGenerator.GenerateAIRecommendations | lib/ai/safety-report-generator.ts:355-405 | the pushed list equals the recommendations of the satisfied rules |
| ReportGenerator.AIRecommendationsRules | lib/ai/safety-report-generator.ts:355-405 | at most three recommendations; speed control exactly when speed management is an area, risk management exactly for a worsening trend, fatigue management exactly above 2 fatigue detections; only risk management is critical |
| ReportGenerator.Percentile | lib/ai/safety-report-generator.ts:432 | 95 exactly from score 90, 50 exactly below 80, 75 between |
| ReportGenerator.PercentileMonotone | lib/ai/safety-report-generator.ts:432 | a higher score never gets a lower percentile |
| ReportGenerator.ComparativeAnalysisOf | lib/ai/safety-report-generator.ts:407-435 | the improvement is current minus previous; the invented previous counts are never below the current ones and the changes are never positive; the peer comparison uses the average 78 and the percentile bucket |
| ReportGenerator.ReduceMax | lib/ai/safety-report-generator.ts:473-474 | the reduce settles on its initial value or on one of the keys |
| ReportGenerator.MostCommonOf | lib/ai/safety-report-generator.ts:467-475 | nothing exactly for an empty array, else an element of the array |
| ReportGenerator.ScanMaxIsMax | lib/ai/safety-report-generator.ts:473-474 | the element the scan settles on has the largest count, and every earlier position has a strictly smaller one |
| ReportGenerator.ReduceMaxIsScanMax | lib/ai/safety-report-generator.ts:467-475 | the reduce over the distinct elements in first-occurrence order picks the same element as the scan over every position |
| ReportGenerator.MostCommonIsMostFrequent | lib/ai/safety-report-generator.ts:467-475 | the chosen element has the largest count, and ties go to the element that appears first |
| ReportGenerator.GetMostCommon | lib/ai/safety-report-generator.ts:467-475 | tallying into a record and reducing over its entries yields the most common element |
| ReportGenerator.Hours | lib/ai/safety-report-generator.ts:440 | the local hour of each event, position by position |
| ReportGenerator.RiskiestUpTo | lib/ai/safety-report-generator.ts:446-447 | the riskiest-hour reduce yields an hour of the day |
| ReportGenerator.SafestUpTo | lib/ai/safety-report-generator.ts:444-445 | the safest-hour reduce yields an hour of the day |
| ReportGenerator.RiskiestUpToIsMax | lib/ai/safety-report-generator.ts:446-447 | the chosen hour has the largest count among the hours scanned, earlier hours strictly less |
| ReportGenerator.SafestUpToIsMin | lib/ai/safety-report-generator.ts:444-445 | the chosen hour has events whenever some hour does, the fewest among hours that have events, earlier such hours strictly more |
| ReportGenerator.RiskiestHour | lib/ai/safety-report-generator.ts:446-447 | an hour of the day |
| ReportGenerator.SafestHour | lib/ai/safety-report-generator.ts:444-445 | an hour of the day |
| ReportGenerator.RiskiestHourIsBusiest | lib/ai/safety-report-generator.ts:438-447 | the riskiest hour has the most events, the earliest such hour winning; hour 0 without events |
| ReportGenerator.SafestHourIsQuietest | lib/ai/safety-report-generator.ts:438-445 | with events, the safest hour has events and the fewest of them, the earliest such hour winning; hour 0 without events |
| ReportGenerator.SafestOf | lib/ai/safety-report-generator.ts:444-445 | the reduce over the hour histogram's entries in ascending order yields the safest hour |
| ReportGenerator.RiskiestOf | lib/ai/safety-report-generator.ts:446-447 | the reduce over the hour histogram's entries in ascending order yields the riskiest hour |
| ReportGenerator.HourInsights | lib/ai/safety-report-generator.ts:438-447 | tallying events per hour and reducing yields the safest and the riskiest hour |
| ReportGenerator.EventTypes | lib/ai/safety-report-generator.ts:449 | the events' types, position by position |
| ReportGenerator.GenerateInsights | lib/ai/safety-report-generator.ts:437-460 | both hours lie in [0, 24); without events both are hour 0 and the most common risk is none; with events it is one of the events' types |
| ReportGenerator.Report | lib/ai/safety-report-generator.ts:78-160 | the report carries the given id, customer and vehicle, is generated when the period ends, counts every trip, and holds at most four achievements, three areas and three recommendations |
| ReportGenerator.GenerateReport | lib/ai/safety-report-generator.ts:78-160 | the report assembled from the helpers equals the report of its inputs, clock and id (risk trend as written) |
| ReportGenerator.ScoreChangeMatchesImprovement | lib/ai/safety-report-generator.ts:97-134 | the score change and the comparative score improvement always agree |
| ReportGenerator.ReportScores | lib/ai/safety-report-generator.ts:92-160 | the overall score lies in [0, 100] and is 100 without analyses; the top percentile is given exactly from 90; the period ends when the report is generated |
| ReportGenerator.ReportCounts | lib/ai/safety-report-generator.ts:92-160 | trips and incidents are counted, critical events and per-type counts never exceed the events, no events give 100% safe driving, high-risk trips never exceed the trips |
| ReportGenerator.ReportRules | lib/ai/safety-report-generator.ts:92-160 | at most four achievements and three areas; speed-control advice exactly above 5 overspeeding incidents; risk-management advice exactly for a worsening trend |
| SafetyScoring.SpeedPenalty | lib/ai-safety-scoring.ts:88 | the penalty is never negative and is zero exactly for a peak speed of at most 80 km/h |
| SafetyScoring.SpeedCompliance | lib/ai-safety-scoring.ts:82-93 | 85 without trips; otherwise 100 less the mean penalty, within [0, 100] |
| SafetyScoring.SpeedComplianceFull | lib/ai-safety-scoring.ts:82-93 | with trips, full marks exactly when no trip's peak speed exceeds 80 km/h |
| SafetyScoring.CountIssuedAfter | lib/ai-safety-scoring.ts:99-104 | the challans after the cut-off number at most all challans |
| SafetyScoring.CountIssuedAfterZero | lib/ai-safety-scoring.ts:234-241 | no recent challan exactly when none is dated after the cut-off |
| SafetyScoring.TrafficRuleCompliance | lib/ai-safety-scoring.ts:95-108 | 95 without challans; with challans at most 92 and at least 100 less 15 per challan, within [0, 100] |
| SafetyScoring.TrafficRecentWeighsMore | lib/ai-safety-scoring.ts:106-107 | all challans older than six months cost 8 points each, all recent ones 15 each, clamped at 0 |
| SafetyScoring.DocumentCredit | lib/ai-safety-scoring.ts:119-126 | a document adds 0 exactly when expired, 0.7 exactly when expiring within 30 days, 1 exactly when its status is valid |
| SafetyScoring.VehicleCredit | lib/ai-safety-scoring.ts:116-127 | a vehicle's three documents add between 0 and 3 |
| SafetyScoring.ValidDocuments | lib/ai-safety-scoring.ts:113-127 | the valid-document count lies between 0 and three per vehicle |
| SafetyScoring.DocumentCompliance | lib/ai-safety-scoring.ts:110-130 | 85 without vehicles; otherwise a rounded percentage within [0, 100] |
| SafetyScoring.CalculateDocumentCompliance | lib/ai-safety-scoring.ts:110-130 | the counters updated vehicle by vehicle give the document compliance of the vehicles |
| SafetyScoring.ValidDocumentsExtremes | lib/ai-safety-scoring.ts:116-127 | all documents valid count three per vehicle; all expired count zero |
| SafetyScoring.DocumentComplianceAllValid | lib/ai-safety-scoring.ts:110-130 | vehicles whose documents are all valid score 100 |
| SafetyScoring.DocumentComplianceAllExpired | lib/ai-safety-scoring.ts:110-130 | vehicles whose documents are all expired score 0 |
| SafetyScoring.TripScore | lib/ai-safety-scoring.ts:137-146 | a trip's score is never negative and, for non-negative counts, at most 100 |
| SafetyScoring.DrivingBehaviorScore | lib/ai-safety-scoring.ts:132-150 | 80 without trips; never negative |
| SafetyScoring.DrivingBehaviorScoreBounds | lib/ai-safety-scoring.ts:132-150 | with non-negative counts the score lies in [0, 100], and trips that all score 100 give 100 |
| SafetyScoring.ViolationHistoryScore | lib/ai-safety-scoring.ts:152-163 | 100 without challans; otherwise within [0, 100] |
| SafetyScoring.PaidPlusUnpaid | lib/ai-safety-scoring.ts:155-156 | every challan is counted as paid or as pending/overdue, never both |
| SafetyScoring.ViolationHistoryAllPaid | lib/ai-safety-scoring.ts:152-163 | challans all paid score 100 |
| SafetyScoring.ViolationHistoryUnpaid | lib/ai-safety-scoring.ts:152-163 | one pending or overdue challan drops the score below 90 |
| SafetyScoring.Factors | lib/ai-safety-scoring.ts:37-49 | speed, traffic, document and history factors lie in [0, 100] and behaviour is never negative; a customer without records gets 85, 95, 85, 80, 100 |
| SafetyScoring.OverallScore | lib/ai-safety-scoring.ts:51-58 | factors within [0, 100] give an overall score within [0, 100] |
| SafetyScoring.OverallScoreBounds | lib/ai-safety-scoring.ts:51-58 | factors within [0, 100] give an overall score within [0, 100] |
| SafetyScoring.OverallScoreOfEqualFactors | lib/ai-safety-scoring.ts:51-58 | the weights sum to one: equal factors score their own rounded value |
| SafetyScoring.OverallScoreMonotone | lib/ai-safety-scoring.ts:51-58 | raising any factor never lowers the overall score |
| SafetyScoring.RiskLevelOf | lib/ai-safety-scoring.ts:64 | low risk exactly from 80, high risk exactly below 60 |
| SafetyScoring.TrendOf | lib/ai-safety-scoring.ts:70 | improving exactly from 85, declining exactly below 70 |
| SafetyScoring.RiskAndTrendAgree | lib/ai-safety-scoring.ts:64-70 | an improving trend is low risk, a stable trend is never high risk, and high risk is always declining |
| SafetyScoring.ExpiringVehicleCount | lib/ai-safety-scoring.ts:193-195 | at most the number of vehicles |
| SafetyScoring.ExpiringVehicleCountZero | lib/ai-safety-scoring.ts:193-197 | zero exactly when no vehicle has a document expiring within 30 days |
| SafetyScoring.SpeedInsights | lib/ai-safety-scoring.ts:173-190 | at most one speed insight, actionable exactly when its impact is not low |
| SafetyScoring.DocumentInsights | lib/ai-safety-scoring.ts:192-205 | at most one documents insight, actionable exactly when its impact is not low |
| SafetyScoring.BehaviorInsights | lib/ai-safety-scoring.ts:207-231 | at most a harsh-braking and a phone-usage insight, each actionable exactly when its impact is not low |
| SafetyScoring.ViolationInsights | lib/ai-safety-scoring.ts:233-249 | at most one no-recent-violations insight, actionable exactly when its impact is not low |
| SafetyScoring.AIInsights | lib/ai-safety-scoring.ts:165-252 | at most five insights, each actionable exactly when its impact is not low |
| SafetyScoring.GenerateAIInsights | lib/ai-safety-scoring.ts:165-252 | the pushed insights are the rule insights in push order |
| SafetyScoring.AIInsightsShape | lib/ai-safety-scoring.ts:165-252 | at most five insights, each actionable exactly when its impact is not low |
| SafetyScoring.AIInsightsSpeedAndDocuments | lib/ai-safety-scoring.ts:173-205 | the speed warning exactly below 70, the speed achievement exactly above 90, the documents warning exactly when some vehicle has a document expiring soon |
| SafetyScoring.AIInsightsBehaviorAndViolations | lib/ai-safety-scoring.ts:207-249 | harsh braking exactly above a mean of 3, phone usage exactly above a mean of 1, no recent violations exactly when there are challans and none in the last three months |
| SafetyScoring.TakeFive | lib/ai-safety-scoring.ts:283 | the first five elements, or all of them when fewer |
| SafetyScoring.GenerateRecommendations | lib/ai-safety-scoring.ts:254-284 | the pushed tips cut to five are the first five rule tips |
| SafetyScoring.RecommendationsRules | lib/ai-safety-scoring.ts:254-284 | at most five, a prefix of the rule-ordered list; a speed factor below 80 puts its two tips first; the insight reminder is listed exactly when some insight is actionable with more than low impact |
| SafetyScoring.AnalysisOf | lib/ai-safety-scoring.ts:31-80 | at most five insights and recommendations; low risk exactly from 80; a declining trend is never low risk |
| SafetyScoring.CalculateAISafetyScore | lib/ai-safety-scoring.ts:31-80 | the analysis computed step by step equals the analysis of the customer's records |
| SafetyScoring.AnalysisBounds | lib/ai-safety-scoring.ts:31-80 | with non-negative counts every factor and the overall score lie in [0, 100], risk level and trend follow the score's bands, at most five insights and five recommendations |
| SafetyScoring.AnalysisWithoutRecords | lib/ai-safety-scoring.ts:31-80 | a customer without records gets the default factors 85, 95, 85, 80, 100, overall 88, low risk and an improving trend |
| SafetyScoring.PushEvent | lib/ai-safety-scoring.ts:303-321 | pushing an event with its tip keeps tips in step with events and adds the event's points |
| SafetyScoring.PredictFromBehavior | lib/ai-safety-scoring.ts:299-314 | the trip rules give their events in order, one matching tip each, and the points of those events, at most 60 |
| SafetyScoring.PredictRiskEvents | lib/ai-safety-scoring.ts:287-329 | the predicted events are those of the rules in order, each with its tip, and the risk score is their total points, at most 80 |
| SafetyScoring.PredictedEvents | lib/ai-safety-scoring.ts:295-329 | at most three events; the speeding event exactly with at least two speeding challans |
| SafetyScoring.PredictedEventsRules | lib/ai-safety-scoring.ts:295-329 | at most three distinct events: rear-end risk exactly above mean harsh braking 4, distraction exactly above mean phone use 2, speeding exactly with at least two speeding challans |
| SafetyScoring.CompanyTrend | lib/ai-safety-scoring.ts:342-343 | without trips the trend is declining (the mean is NaN) |
| SafetyScoring.CompanyTrendBands | lib/ai-safety-scoring.ts:342-343 | trip scores all at least 80 give improving; all at least 70 never give declining |
| SafetyScoring.ViolationEntries | lib/ai-safety-scoring.ts:347-355 | one entry per distinct violation type, in first-occurrence order, with its count |
| SafetyScoring.TopThree | lib/ai-safety-scoring.ts:357 | the first three entries, or all of them when fewer |
| SafetyScoring.EntriesOf | lib/ai-safety-scoring.ts:355 | the record's entries in key order, each with its count |
| SafetyScoring.TallyEntries | lib/ai-safety-scoring.ts:347-355 | the tallied record's entries are exactly the violation entries |
| SafetyScoring.PushTypes | lib/ai-safety-scoring.ts:358 | the risk areas are the types of the given entries, in order |
| SafetyScoring.GenerateCompanyInsights | lib/ai-safety-scoring.ts:332-371 | the company insights are the fleet trend, the risk areas and the fixed performers and recommendations |
| SafetyScoring.SortedEntriesCounts | lib/ai-safety-scoring.ts:347-356 | each sorted entry is a violation type that occurs, with its number of challans |
| SafetyScoring.EntriesByType | lib/ai-safety-scoring.ts:347-355 | an entry is determined by its violation type |
| SafetyScoring.SortedEntriesDistinct | lib/ai-safety-scoring.ts:355-356 | sorting keeps the violation types distinct |
| SafetyScoring.SortedEntriesCover | lib/ai-safety-scoring.ts:347-356 | every violation type that occurs has an entry after sorting |
| SafetyScoring.RiskAreas | lib/ai-safety-scoring.ts:355-358 | at most three risk areas (which ones is stated by the three lemmas below) |
| SafetyScoring.RiskAreasTopThree | lib/ai-safety-scoring.ts:355-358 | the risk areas are distinct violation types that occur, three of them unless fewer types occur |
| SafetyScoring.RiskAreasByCount | lib/ai-safety-scoring.ts:355-358 | the risk areas are listed by non-increasing number of challans |
| SafetyScoring.RiskAreasLeaveOutLess | lib/ai-safety-scoring.ts:355-358 | no violation type left out occurs more often than any listed risk area |
| DateUtils.CeilDiv | lib/utils/date-utils.ts:5 | `Math.ceil` of a quotient: the least integer at or above it |
| DateUtils.IsExpired | lib/utils/date-utils.ts:9-13 | an unparseable date never expires; an expired document is never expiring soon |
| DateUtils.IsExpiringSoon | lib/utils/date-utils.ts:1-7 | expiring soon only for a parsed expiry after now and at most the threshold in days later |
| DateUtils.GetDocumentStatus | lib/utils/date-utils.ts:23-27 | expired exactly when isExpired holds; expiring soon exactly when not expired and within the default 30 days; valid otherwise |
| DateUtils.ExpiringSoonWindow | lib/utils/date-utils.ts:1-7 | for a positive threshold, expiring soon exactly when the expiry lies after now and at most that many whole days later |
| DateUtils.ExpiringSoonIsNotExpired | lib/utils/date-utils.ts:1-13 | a document expiring soon, for any threshold, is not expired |
| DateUtils.StatusByTime | lib/utils/date-utils.ts:9-27 | expired strictly before now; expiring soon from just after now to 30 days later; valid at exactly now, beyond 30 days or for an unparseable date |
| Numeric.Round | lib/ai/safety-report-generator.ts:185 | `Math.round`: the integer within half a unit of the value, halves rounding up |
| Numeric.Clamp | lib/ai-safety-scoring.ts:92 | `Math.max(lo, Math.min(hi, x))` lies within [lo, hi], is x inside the range and the nearer bound outside it |
| Folds.FirstOccurrences | lib/ai-safety-scoring.ts:355 | the record's keys in insertion order: exactly the elements of the array, the first of them first |
| Folds.FirstOccurrencesDistinct | lib/ai-safety-scoring.ts:355 | no key is listed twice |
| Folds.SumOf | lib/ai/safety-report-generator.ts:234 | the `reduce` sum of a single element is that element's value (its additivity and bounds are stated by the two lemmas below) |
| Folds.SumOfAppend | lib/ai/safety-report-generator.ts:234 | the sum of a concatenation is the sum of the two parts |
| Folds.SumOfBounds | lib/ai/safety-report-generator.ts:234 | terms each within [lo, hi] sum to within [n·lo, n·hi] |
| Folds.MeanOf | lib/ai/safety-report-generator.ts:234 | the mean of a non-empty list times its length is the `reduce` sum (its bounds are stated by the lemmas below) |
| Folds.CountWhere | lib/ai/safety-report-generator.ts:228 | `filter(p).length` never exceeds the array's length |
| Folds.CountWhereZero | lib/ai/safety-report-generator.ts:228 | the count is zero exactly when no element satisfies the predicate |
| Folds.MatchingPositions | lib/ai/real-time-alert-system.ts:291 | the positions whose element passes the predicate, strictly increasing, one per passing element |
| Folds.Filter | lib/ai/real-time-alert-system.ts:291 | `filter(p)` keeps exactly the passing elements: its length is their count, each kept element passes, each passing element is kept |
| Folds.FilterAtMatchingPositions | lib/ai/real-time-alert-system.ts:291 | the k-th kept element is the one at the k-th passing position, so `filter` keeps the original order and each element as often as it passes |
| Folds.Tally | lib/ai/safety-report-generator.ts:469-472 | the counting loop leaves a record holding, for exactly the array's elements, their number of occurrences, and keys in first-insertion order |
| Folds.SortBy | lib/ai-safety-scoring.ts:356 | the sort is a permutation of its input |
| Folds.SortByOrdered | lib/ai-safety-scoring.ts:356 | the sort orders by key, largest first, and keeps equal keys in their original order (the sort is stable) |
| Folds.Variance | lib/ai/driver-behavior-analyzer.ts:330-334 | the population variance is never negative |
| Folds.VarianceOfConstant | lib/ai/driver-behavior-analyzer.ts:330-334 | equal values have variance zero |

## Left out

- Square roots and the haversine distance are not computed. The acceleration magnitude of the current sample is compared in squared form. The magnitudes of recent samples are inputs, with a precondition that each is the non-negative root of its squared norm. The great-circle distance is a function parameter.
- Wall-clock time is a parameter and is not read: `new Date()`, `Date.now()`, `getHours()` in the host time zone, and the calendar arithmetic of `setMonth`/`setDate`. Daylight-saving shifts and month-length rules are therefore not modelled.
- A challan's date string is modelled by the instant it parses to, or by no value when it does not parse. Date parsing itself is not modelled.
- Report ids and alert ids use a counter, not `Date.now()` and `Math.random()`. The counter gives the uniqueness the source relies on.
- Free text becomes enumerations with fixed meaning: titles, descriptions, advice, tips and alert messages. `toFixed` number formatting inside messages is not modelled, nor is the "h:00 - h+1:00" rendering of report hours.
- `formatDate` (lib/utils/date-utils.ts:15-21) depends on locale formatting and is not part of this model.
- The accident predictor's `predictionModel` field is a fixed label. It is kept as a constant, not as a field of the prediction.
- `calculateWeatherRisk` has no weather source and always returns 0.3. It is a constant.
- The exported scoring entry points filter a mock-data module by customer id. Here the already filtered vehicles, challans and trip records are parameters. The mock data, the database, the telemetry simulator, authentication and the UI are not part of this model. The one exception: the live monitor's 20-sample window is cited for one lemma.
- `Object.entries` visits integer-like keys (hours) in ascending order and other keys in insertion order. The model uses exactly these orders; it does not model JavaScript objects in general.
- Alerts are values. A subscriber that kept an alert object does not see the object's later `isRead`/`isAcknowledged` changes; the history does.
- An exception thrown by a subscriber callback, and the console logging that catches it, are not modelled. Every delivery is recorded as made.
- `aggregateDrivingBehavior` takes the behaviour analyses but never reads them. The model keeps the parameter and ignores it too.
- `predictRiskEvents` caps its score at 100, but the three rules add at most 80. The model applies the cap, and `SafetyScoring.PredictRiskEvents` states the reachable bound of 80.
- `SafetyScoring.PredictRiskEvents` is split into a method for the trip rules and a method for the challan rule. The split changes nothing observable.
- `NaN` is not a value of the model. The two places where the source can produce it are stated as their outcome: an unparseable expiry date never counts as expired or expiring, and a fleet without trips reads as a declining trend.

## Findings

| source | as written | input that shows it | evidently intended | confidence | as-written member | corrected member |
|---|---|---|---|---|---|---|
| lib/ai/safety-report-generator.ts:237-246 | the recent half (the first floor(n/2) predictions) is divided by ceil(n/2), and the older half by floor(n/2); for odd n each half is divided by the other half's length | three predictions, each with risk score 0.5: recent 0.5/2 = 0.25, older 1.0/1 = 1.0, so the trend reads "improving" | each half averaged over its own length, so constant risk reads "stable" | not executed | ReportGenerator.RiskTrendAsWrittenFlatScores | ReportGenerator.RiskTrendFlat |
| lib/ai/safety-report-generator.ts:237-246 | the same division: with an odd number of predictions the trend can point the wrong way | risk scores 0.5, 0.3, 0.3, newest first: recent 0.5/2 = 0.25, older 0.6/1 = 0.6, so the trend reads "improving" although the newest risk is the highest | recent mean 0.5 against older mean 0.3 reads "worsening" | not executed | ReportGenerator.RiskTrendAsWrittenReversed | ReportGenerator.RiskTrendWorsening |

The report itself keeps the trend as the source computes it:
`ReportGenerator.AnalyzeRisks` calls `RiskTrendAsWritten`, and the
corrected `RiskTrend` with its lemmas states the intended behaviour beside
it. For an even number of predictions the two agree
(`RiskTrendAsWrittenEvenLength`).
