/**
 * The real-time alert dispatcher (lib/ai/real-time-alert-system.ts).
 *
 * A `RealTimeAlertSystem` keeps a newest-first history of at most 100
 * alerts and a list of subscribers. Predictions and driving events are gated
 * by severity and turned into alerts; every emitted alert is put at the front
 * of the history and handed to each subscriber in registration order.
 *
 * Subscriber callbacks are identified by a `SubscriberId` (the source
 * compares callbacks by reference), and each call of a callback is recorded
 * as a `Delivery`. Alert ids come from a counter instead of the clock and a
 * random suffix, and "now" is a parameter.
 */
module AlertSystem {
  import opened Numeric
  import opened Folds
  import BA = BehaviorAnalyzer
  import AP = AccidentPredictor

  type SubscriberId = nat

  /** `Alert['type']`; a driving-event alert takes the event's own type. */
  datatype AlertType = OfEvent(eventType: BA.EventType) | AccidentRisk | Anomaly | RiskZone

  datatype AlertSeverity = Info | Warning | Danger | Critical

  /** The headline of an alert, by the template it is taken from. */
  datatype Message =
    | RiskMessage(level: AP.RiskLevel)
    | AnomalyMessage
    | EventMessage(eventType: BA.EventType)
    | CustomMessage(text: string)

  /** The explanation of an alert, by its template and the values put into it. */
  datatype AlertExplanation =
    | RiskExplanation(level: AP.RiskLevel, riskScore: real, timeToRisk: nat)
    | AnomalyExplanation(anomalyType: Option<AP.AnomalyType>)
    | FromEvent(explanation: BA.Explanation)
    | CustomExplanation(text: string)

  /** One entry of `aiReasoning.primaryFactors`. */
  datatype PrimaryFactor =
    | TopFactorOf(factor: AP.FactorKey)
    | AnomalyOf(anomalyType: Option<AP.AnomalyType>)
    | Named(name: string)

  datatype AlertReasoning = AlertReasoning(
    primaryFactors: seq<PrimaryFactor>,
    riskScore: Option<real>,
    confidenceLevel: real)

  /** The recommended action of an alert. */
  datatype Action =
    | FirstAdvice(advice: AP.Advice)
    | SlowDownAndStayAlert
    | CheckVehicleSystems
    | EventAction(eventType: BA.EventType)
    | StopSafely
    | TypeAction(alertType: AlertType)
    | DriveCarefully

  datatype Alert = Alert(
    id: nat,
    alertType: AlertType,
    severity: AlertSeverity,
    timestamp: BA.Timestamp,
    location: BA.Location,
    message: Message,
    explanation: AlertExplanation,
    aiReasoning: AlertReasoning,
    recommendedAction: Action,
    isRead: bool,
    isAcknowledged: bool)

  /** One call of a subscriber's callback with an alert. */
  datatype Delivery = Delivery(subscriber: SubscriberId, alert: Alert)

  /** The parameters of createCustomAlert (`data` is not modelled). */
  datatype CustomAlertParams = CustomAlertParams(
    alertType: AlertType,
    severity: AlertSeverity,
    location: BA.Location,
    message: string,
    explanation: string,
    factors: seq<string>)

  const MaxAlerts: nat := 100

  // ------------------------------------------------------- severity maps

  function SeverityRank(s: AlertSeverity): nat
  {
    match s
    case Info => 0
    case Warning => 1
    case Danger => 2
    case Critical => 3
  }

  /** mapRiskLevelToSeverity */
  function RiskLevelSeverity(l: AP.RiskLevel): (s: AlertSeverity)
    ensures SeverityRank(s) == AP.LevelRank(l)
  {
    match l
    case Critical => Critical
    case High => Danger
    case Medium => Warning
    case Low => Info
  }

  /** mapEventSeverityToAlertSeverity */
  function EventSeverity(e: BA.Severity): (s: AlertSeverity)
    ensures SeverityRank(s) == BA.SeverityRank(e)
  {
    match e
    case Critical => Critical
    case High => Danger
    case Medium => Warning
    case Low => Info
  }

  /** getRecommendedAction */
  function RecommendedAction(t: AlertType, s: AlertSeverity): (a: Action)
    ensures s == Critical ==> a == StopSafely
    ensures a == DriveCarefully <==>
      s != Critical && (t == OfEvent(BA.RapidAcceleration) || t == OfEvent(BA.PhoneUsage))
  {
    if s == Critical then StopSafely
    else if t == OfEvent(BA.RapidAcceleration) || t == OfEvent(BA.PhoneUsage) then DriveCarefully
    else TypeAction(t)
  }

  // ------------------------------------------------------- alert builders

  predicate IsRiskLevelAlerted(l: AP.RiskLevel)
  {
    l == AP.High || l == AP.Critical
  }

  predicate IsSevereEvent(e: BA.DrivingEvent)
  {
    e.severity == BA.High || e.severity == BA.Critical
  }

  function TopFactorNames(top: seq<AP.TopFactor>): (r: seq<PrimaryFactor>)
    ensures |r| == |top|
    ensures forall i :: 0 <= i < |r| ==> r[i] == TopFactorOf(top[i].factor)
  {
    seq(|top|, i requires 0 <= i < |top| => TopFactorOf(top[i].factor))
  }

  /** createAccidentRiskAlert */
  function AccidentRiskAlert(p: AP.AccidentPrediction, location: BA.Location, now: BA.Timestamp, id: nat): (a: Alert)
    ensures a.id == id && a.alertType == AccidentRisk && a.timestamp == now && a.location == location
    ensures SeverityRank(a.severity) == AP.LevelRank(p.riskLevel)
    ensures !a.isRead && !a.isAcknowledged
  {
    Alert(id, AccidentRisk, RiskLevelSeverity(p.riskLevel), now, location,
      RiskMessage(p.riskLevel),
      RiskExplanation(p.riskLevel, p.riskScore, p.timeToRisk),
      AlertReasoning(TopFactorNames(p.topFactors), Some(p.riskScore), p.confidenceScore),
      if |p.recommendations| > 0 then FirstAdvice(p.recommendations[0]) else SlowDownAndStayAlert,
      false, false)
  }

  /** createAnomalyAlert: always a warning. */
  function AnomalyAlert(p: AP.AccidentPrediction, location: BA.Location, now: BA.Timestamp, id: nat): (a: Alert)
    ensures a.id == id && a.alertType == Anomaly && a.severity == Warning
    ensures a.timestamp == now && a.location == location
    ensures !a.isRead && !a.isAcknowledged
  {
    Alert(id, Anomaly, Warning, now, location,
      AnomalyMessage,
      AnomalyExplanation(p.anomalyType),
      AlertReasoning([AnomalyOf(p.anomalyType)], None, p.confidenceScore),
      CheckVehicleSystems,
      false, false)
  }

  /** createDrivingEventAlert */
  function DrivingEventAlert(e: BA.DrivingEvent, id: nat): (a: Alert)
    ensures a.id == id && a.alertType == OfEvent(e.eventType)
    ensures SeverityRank(a.severity) == BA.SeverityRank(e.severity)
    ensures a.timestamp == e.timestamp && a.location == e.location
    ensures !a.isRead && !a.isAcknowledged
  {
    Alert(id, OfEvent(e.eventType), EventSeverity(e.severity), e.timestamp, e.location,
      EventMessage(e.eventType),
      FromEvent(e.explanation),
      AlertReasoning(seq(|e.aiReasoning.Factors()|, i requires 0 <= i < |e.aiReasoning.Factors()| => Named(e.aiReasoning.Factors()[i])),
                     None, 0.9),
      EventAction(e.eventType),
      false, false)
  }

  /** The alert createCustomAlert builds. */
  function CustomAlert(params: CustomAlertParams, now: BA.Timestamp, id: nat): (a: Alert)
    ensures a.id == id && a.alertType == params.alertType && a.severity == params.severity
    ensures a.timestamp == now && a.location == params.location
    ensures params.severity == Critical ==> a.recommendedAction == StopSafely
    ensures !a.isRead && !a.isAcknowledged
  {
    Alert(id, params.alertType, params.severity, now, params.location,
      CustomMessage(params.message),
      CustomExplanation(params.explanation),
      AlertReasoning(seq(|params.factors|, i requires 0 <= i < |params.factors| => Named(params.factors[i])), None, 0.85),
      RecommendedAction(params.alertType, params.severity),
      false, false)
  }

  /** The alerts processAccidentPrediction emits, in emission order, numbered from `firstId`. */
  function PredictionAlerts(p: AP.AccidentPrediction, location: BA.Location, now: BA.Timestamp, firstId: nat): (r: seq<Alert>)
    ensures |r| <= 2
    ensures forall i :: 0 <= i < |r| ==> r[i].id == firstId + i
  {
    var risk := if IsRiskLevelAlerted(p.riskLevel) then [AccidentRiskAlert(p, location, now, firstId)] else [];
    var anomaly := if p.anomalyDetected then [AnomalyAlert(p, location, now, firstId + |risk|)] else [];
    risk + anomaly
  }

  /** The alerts processDrivingEvent emits. */
  function EventAlerts(e: BA.DrivingEvent, id: nat): (r: seq<Alert>)
    ensures |r| <= 1
    ensures forall i :: 0 <= i < |r| ==> r[i].id == id && r[i].severity in {Danger, Critical}
  {
    if IsSevereEvent(e) then [DrivingEventAlert(e, id)] else []
  }

  /**
   * A prediction raises an accident-risk alert exactly when its level is
   * high or critical, with severity danger or critical, and then an anomaly
   * alert exactly when an anomaly was detected, always a warning: zero, one
   * or two alerts, numbered in order, all unread and unacknowledged.
   */
  lemma {:induction false} PredictionAlertsShape(p: AP.AccidentPrediction, location: BA.Location, now: BA.Timestamp, firstId: nat)
    ensures var r := PredictionAlerts(p, location, now, firstId);
      && |r| == (if IsRiskLevelAlerted(p.riskLevel) then 1 else 0) + (if p.anomalyDetected then 1 else 0)
      && (IsRiskLevelAlerted(p.riskLevel) ==>
            r[0].alertType == AccidentRisk && r[0].severity in {Danger, Critical}
            && (r[0].severity == Critical <==> p.riskLevel == AP.Critical))
      && (forall i :: 0 <= i < |r| ==> r[i].alertType == AccidentRisk || r[i].alertType == Anomaly)
      && (forall i :: 0 <= i < |r| && r[i].alertType == Anomaly ==> r[i].severity == Warning && i == |r| - 1)
      && (p.anomalyDetected <==> exists i :: 0 <= i < |r| && r[i].alertType == Anomaly)
      && (forall i :: 0 <= i < |r| ==> r[i].id == firstId + i && !r[i].isRead && !r[i].isAcknowledged)
  {
    var r := PredictionAlerts(p, location, now, firstId);
    if p.anomalyDetected {
      assert r[|r| - 1].alertType == Anomaly;
    }
  }

  /**
   * A driving event raises an alert exactly when it is high or critical;
   * the alert takes the event's type, time, place and explanation, and its
   * severity is danger or critical.
   */
  lemma {:induction false} EventAlertsShape(e: BA.DrivingEvent, id: nat)
    ensures |EventAlerts(e, id)| == if IsSevereEvent(e) then 1 else 0
    ensures IsSevereEvent(e) ==>
      var a := EventAlerts(e, id)[0];
      && a.alertType == OfEvent(e.eventType)
      && a.timestamp == e.timestamp && a.location == e.location
      && a.explanation == FromEvent(e.explanation)
      && a.severity in {Danger, Critical}
      && (a.severity == Critical <==> e.severity == BA.Critical)
      && a.id == id && !a.isRead && !a.isAcknowledged
  {
  }

  // ----------------------------------------------------------- the history

  /** emitAlert's history update: `unshift`, then keep the 100 newest. */
  function Pushed(history: seq<Alert>, a: Alert): (r: seq<Alert>)
    ensures |r| == if |history| < MaxAlerts then |history| + 1 else MaxAlerts
    ensures r[0] == a
    ensures forall i :: 1 <= i < |r| ==> r[i] == history[i - 1]
  {
    var h := [a] + history;
    if |h| > MaxAlerts then h[..MaxAlerts] else h
  }

  /** The history after emitting `alerts` in order. */
  function EmitAll(history: seq<Alert>, alerts: seq<Alert>): (r: seq<Alert>)
    ensures |history| > 0 || alerts != [] ==> |r| > 0
    decreases |alerts|
  {
    if alerts == [] then history else EmitAll(Pushed(history, alerts[0]), alerts[1..])
  }

  /** Emitting one more alert after a sequence of them. */
  lemma {:induction false} EmitAllSnoc(history: seq<Alert>, alerts: seq<Alert>, a: Alert)
    ensures EmitAll(history, alerts + [a]) == Pushed(EmitAll(history, alerts), a)
    decreases |alerts|
  {
    if alerts == [] {
      assert [a][1..] == [];
    } else {
      assert (alerts + [a])[1..] == alerts[1..] + [a];
      EmitAllSnoc(Pushed(history, alerts[0]), alerts[1..], a);
    }
  }

  /** The calls one emission makes: each subscriber, in registration order. */
  function Fanout(subscribers: seq<SubscriberId>, a: Alert): (r: seq<Delivery>)
    ensures |r| == |subscribers|
    ensures forall i :: 0 <= i < |r| ==> r[i] == Delivery(subscribers[i], a)
  {
    seq(|subscribers|, i requires 0 <= i < |subscribers| => Delivery(subscribers[i], a))
  }

  function FanoutAll(subscribers: seq<SubscriberId>, alerts: seq<Alert>): seq<Delivery>
    decreases |alerts|
  {
    if alerts == [] then [] else Fanout(subscribers, alerts[0]) + FanoutAll(subscribers, alerts[1..])
  }

  lemma {:induction false} FanoutAllSnoc(subscribers: seq<SubscriberId>, alerts: seq<Alert>, a: Alert)
    ensures FanoutAll(subscribers, alerts + [a]) == FanoutAll(subscribers, alerts) + Fanout(subscribers, a)
    decreases |alerts|
  {
    if alerts == [] {
      assert [a][1..] == [];
    } else {
      assert (alerts + [a])[1..] == alerts[1..] + [a];
      FanoutAllSnoc(subscribers, alerts[1..], a);
    }
  }

  /** The delivery log after one more emission. */
  lemma {:induction false} DeliveriesSnoc(log: seq<Delivery>, subscribers: seq<SubscriberId>, alerts: seq<Alert>, a: Alert)
    ensures log + FanoutAll(subscribers, alerts + [a]) == log + FanoutAll(subscribers, alerts) + Fanout(subscribers, a)
  {
    FanoutAllSnoc(subscribers, alerts, a);
  }

  /** Ids strictly decrease from the newest (index 0) to the oldest and stay below `next`. */
  predicate NewestFirst(history: seq<Alert>, next: nat)
  {
    && |history| <= MaxAlerts
    && (forall i :: 0 <= i < |history| ==> history[i].id < next)
    && (forall i, j :: 0 <= i < j < |history| ==> history[i].id > history[j].id)
  }

  /** Emitting an alert with a fresh id keeps the history newest first and capped. */
  lemma {:induction false} PushedNewestFirst(history: seq<Alert>, a: Alert, next: nat)
    requires NewestFirst(history, next) && a.id == next
    ensures NewestFirst(Pushed(history, a), next + 1)
  {
  }

  /** Emitting fresh alerts one after another keeps the history newest first and capped. */
  lemma {:induction false} EmitAllNewestFirst(history: seq<Alert>, alerts: seq<Alert>, next: nat)
    requires NewestFirst(history, next)
    requires forall i :: 0 <= i < |alerts| ==> alerts[i].id == next + i
    ensures NewestFirst(EmitAll(history, alerts), next + |alerts|)
    ensures |alerts| > 0 ==> EmitAll(history, alerts)[0] == alerts[|alerts| - 1]
    decreases |alerts|
  {
    if alerts != [] {
      PushedNewestFirst(history, alerts[0], next);
      EmitAllNewestFirst(Pushed(history, alerts[0]), alerts[1..], next + 1);
    }
  }

  /** The position of the first alert with the given id, as `Array.prototype.find` finds it. */
  function FirstIndex(history: seq<Alert>, id: nat): (r: Option<nat>)
    ensures r.Some? ==> r.value < |history| && history[r.value].id == id
                        && forall j :: 0 <= j < r.value ==> history[j].id != id
    ensures r.None? ==> forall j :: 0 <= j < |history| ==> history[j].id != id
  {
    if history == [] then None
    else if history[0].id == id then Some(0)
    else match FirstIndex(history[1..], id)
      case None => None
      case Some(k) => Some(k + 1)
  }

  /** A linear search that stops at the first match, or at the end, lands where FirstIndex says. */
  lemma {:induction false} FirstIndexAt(history: seq<Alert>, id: nat, i: nat)
    requires i <= |history|
    requires forall j :: 0 <= j < i ==> history[j].id != id
    requires i < |history| ==> history[i].id == id
    ensures FirstIndex(history, id) == if i < |history| then Some(i) else None
  {
    match FirstIndex(history, id)
    case None =>
    case Some(k) =>
      assert !(k < i) && !(i < k);
  }

  /** Changing the flags of one alert keeps the history newest first. */
  lemma {:induction false} FlagUpdateNewestFirst(history: seq<Alert>, next: nat, i: nat, a: Alert)
    requires NewestFirst(history, next)
    requires i < |history| && a.id == history[i].id
    ensures NewestFirst(history[i := a], next)
  {
    var r := history[i := a];
    assert forall j :: 0 <= j < |r| ==> r[j].id == history[j].id;
  }

  /** markAlertAsRead's effect on the history. */
  function MarkedRead(history: seq<Alert>, id: nat): (r: seq<Alert>)
    ensures |r| == |history|
    ensures forall j :: 0 <= j < |r| ==> r[j].id == history[j].id && (history[j].isRead ==> r[j].isRead)
    ensures forall j :: 0 <= j < |r| && r[j] != history[j] ==> history[j].id == id
    ensures forall j :: 0 <= j < |r| && history[j].id == id && (forall k :: 0 <= k < j ==> history[k].id != id) ==>
      r[j].isRead
  {
    match FirstIndex(history, id)
    case None => history
    case Some(i) => history[i := history[i].(isRead := true)]
  }

  /** acknowledgeAlert's effect on the history. */
  function Acknowledged(history: seq<Alert>, id: nat): (r: seq<Alert>)
    ensures |r| == |history|
    ensures forall j :: 0 <= j < |r| ==> r[j].id == history[j].id && (history[j].isAcknowledged ==> r[j].isAcknowledged)
    ensures forall j :: 0 <= j < |r| && r[j] != history[j] ==> history[j].id == id
    ensures forall j :: 0 <= j < |r| && history[j].id == id && (forall k :: 0 <= k < j ==> history[k].id != id) ==>
      r[j].isRead && r[j].isAcknowledged
  {
    match FirstIndex(history, id)
    case None => history
    case Some(i) => history[i := history[i].(isRead := true, isAcknowledged := true)]
  }

  predicate IsUnread(a: Alert)
  {
    !a.isRead
  }

  /**
   * Marking as read changes only the isRead flag of the first alert with that
   * id, and nothing at all for an unknown id; the unread count drops by one
   * exactly when that alert was unread.
   */
  lemma {:induction false} MarkedReadEffect(history: seq<Alert>, id: nat)
    ensures var r := MarkedRead(history, id);
      && |r| == |history|
      && (forall j :: 0 <= j < |history| && history[j].id != id ==> r[j] == history[j])
      && (forall j :: 0 <= j < |history| ==> r[j] == history[j] || r[j] == history[j].(isRead := true))
      && ((forall j :: 0 <= j < |history| ==> history[j].id != id) ==> r == history)
      && CountWhere(r, IsUnread) ==
           CountWhere(history, IsUnread)
           - (if (exists j :: 0 <= j < |history| && history[j].id == id && !history[j].isRead
                   && (forall k :: 0 <= k < j ==> history[k].id != id)) then 1 else 0)
  {
    match FirstIndex(history, id)
    case None =>
    case Some(i) =>
      CountWhereUpdate(history, i, history[i].(isRead := true), IsUnread);
  }

  /**
   * Acknowledging sets both flags of the first alert with that id and
   * nothing else; an unknown id changes nothing.
   */
  lemma {:induction false} AcknowledgedEffect(history: seq<Alert>, id: nat)
    ensures var r := Acknowledged(history, id);
      && |r| == |history|
      && (forall j :: 0 <= j < |history| && history[j].id != id ==> r[j] == history[j])
      && (forall j :: 0 <= j < |history| ==>
            r[j] == history[j] || r[j] == history[j].(isRead := true, isAcknowledged := true))
      && ((forall j :: 0 <= j < |history| ==> history[j].id != id) ==> r == history)
      && (forall j :: (0 <= j < |history| && history[j].id == id
            && (forall k :: 0 <= k < j ==> history[k].id != id)) ==> r[j].isRead && r[j].isAcknowledged)
  {
  }

  /** `alertCallbacks.filter(cb => cb !== callback)` */
  function Without(subscribers: seq<SubscriberId>, s: SubscriberId): (r: seq<SubscriberId>)
    ensures |r| <= |subscribers|
    ensures s !in r
  {
    if subscribers == [] then []
    else (if subscribers[0] == s then [] else [subscribers[0]]) + Without(subscribers[1..], s)
  }

  /** How many times t is registered. */
  function Registrations(subscribers: seq<SubscriberId>, t: SubscriberId): nat
  {
    if subscribers == [] then 0
    else (if subscribers[0] == t then 1 else 0) + Registrations(subscribers[1..], t)
  }

  /**
   * Unsubscribing removes every registration of that subscriber and keeps
   * every registration of the others, in their order.
   */
  lemma {:induction false} WithoutEffect(subscribers: seq<SubscriberId>, s: SubscriberId)
    ensures forall t :: t in Without(subscribers, s) <==> t in subscribers && t != s
    ensures forall t :: t != s ==> Registrations(Without(subscribers, s), t) == Registrations(subscribers, t)
    ensures s !in subscribers ==> Without(subscribers, s) == subscribers
  {
    if subscribers != [] {
      WithoutEffect(subscribers[1..], s);
      var rest := Without(subscribers[1..], s);
      if subscribers[0] != s {
        assert Without(subscribers, s) == [subscribers[0]] + rest;
        assert ([subscribers[0]] + rest)[1..] == rest;
      } else {
        assert Without(subscribers, s) == rest;
      }
      forall t | t != s
        ensures Registrations(Without(subscribers, s), t) == Registrations(subscribers, t)
      {
        assert Registrations(rest, t) == Registrations(subscribers[1..], t);
      }
    }
  }

  /** Unsubscribing distributes over a split of the list, so the survivors keep their order. */
  lemma {:induction false} WithoutAppend(a: seq<SubscriberId>, b: seq<SubscriberId>, s: SubscriberId)
    ensures Without(a + b, s) == Without(a, s) + Without(b, s)
  {
    if a != [] {
      assert (a + b)[1..] == a[1..] + b;
      WithoutAppend(a[1..], b, s);
    } else {
      assert a + b == b;
    }
  }

  /** Ids strictly decreasing: the order the history keeps, newest first. */
  predicate IdsDescending(s: seq<Alert>)
  {
    forall i, j :: 0 <= i < j < |s| ==> s[i].id > s[j].id
  }

  /** Filtering a newest-first list keeps it newest first. */
  lemma {:induction false} FilterKeepsIdsDescending(s: seq<Alert>, p: Alert -> bool)
    ensures IdsDescending(s) ==> IdsDescending(Filter(s, p))
  {
    if IdsDescending(s) {
      FilterAtMatchingPositions(s, p);
      var r, idx := Filter(s, p), MatchingPositions(s, p);
      forall i, j | 0 <= i < j < |r|
        ensures r[i].id > r[j].id
      {
        assert r[i] == s[idx[i]] && r[j] == s[idx[j]];
      }
    }
  }

  /** The alerts `getAlerts(filters)` keeps. */
  predicate MatchesFilters(a: Alert, unreadOnly: bool, severity: Option<AlertSeverity>)
  {
    (!unreadOnly || !a.isRead) && (severity.None? || a.severity == severity.value)
  }

  // ------------------------------------------------------------ the system

  class RealTimeAlertSystem {
    var alerts: seq<Alert>
    var subscribers: seq<SubscriberId>
    var deliveries: seq<Delivery>
    var nextId: nat

    ghost predicate Valid()
      reads this
    {
      NewestFirst(alerts, nextId)
    }

    constructor ()
      ensures Valid()
      ensures alerts == [] && subscribers == [] && deliveries == []
    {
      alerts := [];
      subscribers := [];
      deliveries := [];
      nextId := 0;
    }

    /** subscribeToAlerts */
    method Subscribe(s: SubscriberId)
      requires Valid()
      modifies this
      ensures Valid()
      ensures subscribers == old(subscribers) + [s]
      ensures alerts == old(alerts) && deliveries == old(deliveries) && nextId == old(nextId)
    {
      subscribers := subscribers + [s];
    }

    /** The function subscribeToAlerts returns, called for subscriber s. */
    method Unsubscribe(s: SubscriberId)
      requires Valid()
      modifies this
      ensures Valid()
      ensures subscribers == Without(old(subscribers), s)
      ensures alerts == old(alerts) && deliveries == old(deliveries) && nextId == old(nextId)
    {
      subscribers := Without(subscribers, s);
    }

    /** generateAlertId, as a counter. */
    method FreshId() returns (id: nat)
      requires Valid()
      modifies this
      ensures id == old(nextId) && nextId == old(nextId) + 1
      ensures alerts == old(alerts) && subscribers == old(subscribers) && deliveries == old(deliveries)
      ensures Valid()
    {
      id := nextId;
      nextId := nextId + 1;
    }

    /**
     * emitAlert: the alert goes to the front, the history keeps its 100
     * newest entries, and every subscriber is called once, in order.
     */
    method Emit(a: Alert)
      requires Valid() && a.id == nextId - 1
      requires forall i :: 0 <= i < |alerts| ==> alerts[i].id < a.id
      modifies this
      ensures alerts == Pushed(old(alerts), a)
      ensures deliveries == old(deliveries) + Fanout(subscribers, a)
      ensures subscribers == old(subscribers) && nextId == old(nextId)
      ensures Valid()
    {
      var history := [a] + alerts;
      if |history| > MaxAlerts {
        history := history[..MaxAlerts];
      }
      alerts := history;
      for i := 0 to |subscribers|
        invariant subscribers == old(subscribers)
        invariant deliveries == old(deliveries) + Fanout(subscribers, a)[..i]
        invariant alerts == Pushed(old(alerts), a) && nextId == old(nextId)
      {
        deliveries := deliveries + [Delivery(subscribers[i], a)];
        assert Fanout(subscribers, a)[..i + 1] == Fanout(subscribers, a)[..i] + [Delivery(subscribers[i], a)];
      }
      assert Fanout(subscribers, a)[..|subscribers|] == Fanout(subscribers, a);
      PushedNewestFirst(old(alerts), a, a.id);
    }

    /** processAccidentPrediction */
    method ProcessAccidentPrediction(p: AP.AccidentPrediction, location: BA.Location, now: BA.Timestamp)
      requires Valid()
      modifies this
      ensures Valid()
      ensures alerts == EmitAll(old(alerts), PredictionAlerts(p, location, now, old(nextId)))
      ensures deliveries == old(deliveries) + FanoutAll(subscribers, PredictionAlerts(p, location, now, old(nextId)))
      ensures nextId == old(nextId) + |PredictionAlerts(p, location, now, old(nextId))|
      ensures subscribers == old(subscribers)
    {
      ghost var first := nextId;
      ghost var emitted: seq<Alert> := [];
      assert old(deliveries) + FanoutAll(subscribers, emitted) == deliveries;
      if p.riskLevel == AP.High || p.riskLevel == AP.Critical {
        var id := FreshId();
        var alert := AccidentRiskAlert(p, location, now, id);
        Emit(alert);
        EmitAllSnoc(old(alerts), emitted, alert);
        DeliveriesSnoc(old(deliveries), subscribers, emitted, alert);
        emitted := emitted + [alert];
      }
      assert alerts == EmitAll(old(alerts), emitted) && deliveries == old(deliveries) + FanoutAll(subscribers, emitted);
      if p.anomalyDetected {
        var id := FreshId();
        var alert := AnomalyAlert(p, location, now, id);
        Emit(alert);
        EmitAllSnoc(old(alerts), emitted, alert);
        DeliveriesSnoc(old(deliveries), subscribers, emitted, alert);
        emitted := emitted + [alert];
      }
      assert emitted == PredictionAlerts(p, location, now, first);
    }

    /** processDrivingEvent */
    method ProcessDrivingEvent(e: BA.DrivingEvent)
      requires Valid()
      modifies this
      ensures Valid()
      ensures alerts == EmitAll(old(alerts), EventAlerts(e, old(nextId)))
      ensures deliveries == old(deliveries) + FanoutAll(subscribers, EventAlerts(e, old(nextId)))
      ensures nextId == old(nextId) + |EventAlerts(e, old(nextId))|
      ensures subscribers == old(subscribers)
    {
      if e.severity == BA.High || e.severity == BA.Critical {
        var id := FreshId();
        var alert := DrivingEventAlert(e, id);
        Emit(alert);
      }
    }

    /** createCustomAlert: builds, emits and returns the alert. */
    method CreateCustomAlert(params: CustomAlertParams, now: BA.Timestamp) returns (alert: Alert)
      requires Valid()
      modifies this
      ensures Valid()
      ensures alert == CustomAlert(params, now, old(nextId))
      ensures alerts == Pushed(old(alerts), alert)
      ensures deliveries == old(deliveries) + Fanout(subscribers, alert)
      ensures nextId == old(nextId) + 1 && subscribers == old(subscribers)
    {
      var id := FreshId();
      alert := CustomAlert(params, now, id);
      Emit(alert);
    }

    /** markAlertAsRead: finds the first alert with the id and sets its isRead flag. */
    method MarkAlertAsRead(alertId: nat)
      requires Valid()
      modifies this
      ensures Valid()
      ensures alerts == MarkedRead(old(alerts), alertId)
      ensures subscribers == old(subscribers) && deliveries == old(deliveries) && nextId == old(nextId)
    {
      var i := 0;
      while i < |alerts| && alerts[i].id != alertId
        invariant 0 <= i <= |alerts|
        invariant forall j :: 0 <= j < i ==> alerts[j].id != alertId
      {
        i := i + 1;
      }
      FirstIndexAt(alerts, alertId, i);
      if i < |alerts| {
        FlagUpdateNewestFirst(alerts, nextId, i, alerts[i].(isRead := true));
        alerts := alerts[i := alerts[i].(isRead := true)];
      }
    }

    /** acknowledgeAlert: sets isAcknowledged and isRead of the first alert with the id. */
    method AcknowledgeAlert(alertId: nat)
      requires Valid()
      modifies this
      ensures Valid()
      ensures alerts == Acknowledged(old(alerts), alertId)
      ensures subscribers == old(subscribers) && deliveries == old(deliveries) && nextId == old(nextId)
    {
      var i := 0;
      while i < |alerts| && alerts[i].id != alertId
        invariant 0 <= i <= |alerts|
        invariant forall j :: 0 <= j < i ==> alerts[j].id != alertId
      {
        i := i + 1;
      }
      FirstIndexAt(alerts, alertId, i);
      if i < |alerts| {
        FlagUpdateNewestFirst(alerts, nextId, i, alerts[i].(isRead := true, isAcknowledged := true));
        alerts := alerts[i := alerts[i].(isRead := true, isAcknowledged := true)];
      }
    }

    /** clearAlerts: the history is emptied, the subscribers stay. */
    method ClearAlerts()
      requires Valid()
      modifies this
      ensures Valid()
      ensures alerts == []
      ensures subscribers == old(subscribers) && deliveries == old(deliveries) && nextId == old(nextId)
    {
      alerts := [];
    }

    /** getAlerts: a filtered copy; the history itself is not touched. */
    function GetAlerts(unreadOnly: bool, severity: Option<AlertSeverity>): (r: seq<Alert>)
      reads this
      ensures forall i :: 0 <= i < |r| ==> r[i] in alerts && MatchesFilters(r[i], unreadOnly, severity)
      ensures forall i :: 0 <= i < |alerts| && MatchesFilters(alerts[i], unreadOnly, severity) ==> alerts[i] in r
      ensures !unreadOnly && severity.None? ==> r == alerts
      ensures Valid() ==> IdsDescending(r)
    {
      FilterKeepsIdsDescending(alerts, IsUnread);
      var unread := if unreadOnly then Filter(alerts, IsUnread) else alerts;
      if severity.Some? then
        var ofSeverity := (a: Alert) => a.severity == severity.value;
        FilterKeepsIdsDescending(unread, ofSeverity);
        Filter(unread, ofSeverity)
      else unread
    }

    /** getUnreadCount */
    function GetUnreadCount(): (n: nat)
      reads this
      ensures n <= |alerts|
      ensures n == 0 <==> forall i :: 0 <= i < |alerts| ==> alerts[i].isRead
      ensures n == |GetAlerts(true, None)|
    {
      CountWhereZero(alerts, IsUnread);
      |Filter(alerts, IsUnread)|
    }

    /** getCriticalAlerts: critical alerts not yet acknowledged. */
    function GetCriticalAlerts(): (r: seq<Alert>)
      reads this
      ensures forall i :: 0 <= i < |r| ==> r[i] in alerts && r[i].severity == Critical && !r[i].isAcknowledged
      ensures forall i :: 0 <= i < |alerts| && alerts[i].severity == Critical && !alerts[i].isAcknowledged ==>
        alerts[i] in r
    {
      Filter(alerts, (a: Alert) => a.severity == Critical && !a.isAcknowledged)
    }
  }
}
