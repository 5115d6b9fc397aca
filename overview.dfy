/**
 * The frontend overview card (frontend/src/components/dashboard/Overview.jsx).
 * Its health data may be absent altogether (`healthData?.[...]`), its stat
 * values fall back to 0, and its alerts fall back to a built-in list.
 */
module Overview {
  import opened Wrappers
  import opened Readings
  import opened Ui
  import Dashboard
  import Alerts

  /** `healthData?.[healthData.length - 1] || {}`. */
  function LatestData(healthData: Option<seq<Reading>>): (r: Reading)
    ensures healthData.None? ==> r == EmptyReading
    ensures healthData.Some? ==> r == Dashboard.LatestData(healthData.value)
  {
    if healthData.None? then EmptyReading else Dashboard.LatestData(healthData.value)
  }

  /** `healthData?.[healthData.length - 2] || {}`. */
  function PreviousData(healthData: Option<seq<Reading>>): (r: Reading)
    ensures healthData.None? ==> r == EmptyReading
    ensures healthData.Some? ==> r == Dashboard.PreviousData(healthData.value)
  {
    if healthData.None? then EmptyReading else Dashboard.PreviousData(healthData.value)
  }

  /** The trend each card receives; NaN unless there are two readings. */
  function StatTrend(healthData: Option<seq<Reading>>, f: Field): (t: TrendValue)
    ensures healthData.None? || |healthData.value| < 2 ==> t == NaN
    ensures healthData.Some? ==> t == Dashboard.StatTrend(healthData.value, f)
  {
    CalculateTrend(LatestData(healthData), PreviousData(healthData), f)
  }

  /** `latestData.field || 0`: a missing value, like a zero, shows as 0. */
  function DisplayValue(r: Reading, f: Field): (v: int)
    ensures f !in r.values ==> v == 0
    ensures f in r.values ==> v == r.values[f]
  {
    if f in r.values && r.values[f] != 0 then r.values[f] else 0
  }

  /** With no health data every card shows 0 and a NaN trend (a gray arrow). */
  lemma AbsentDataShowsZeros(f: Field)
    ensures DisplayValue(LatestData(None), f) == 0
    ensures StatTrend(None, f) == NaN
  {
  }

  const HighText := "Your heart rate has exceeded the normal range."
  const MediumText := "Your blood pressure is slightly elevated."
  const LowText := "Your blood glucose levels are within normal range."

  /** The card's own built-in alerts, stamped now, one hour ago and two hours ago. */
  function MockAlerts(now: int): (alerts: seq<Alerts.Alert>)
    ensures |alerts| == 3
    ensures alerts[0].severity == "high" && alerts[1].severity == "medium" && alerts[2].severity == "low"
    ensures alerts[0].timestamp == now && alerts[1].timestamp == now - 3600000 && alerts[2].timestamp == now - 7200000
  {
    [ Alerts.Alert(1, "High Heart Rate Alert", HighText, "high", now),
      Alerts.Alert(2, "Blood Pressure Warning", MediumText, "medium", now - 3600000),
      Alerts.Alert(3, "Blood Glucose Update", LowText, "low", now - 7200000) ]
  }

  /** `displayAlerts`: the given alerts when there are any, the built-in three otherwise. */
  function DisplayAlerts(alerts: Option<seq<Alerts.Alert>>, now: int): (d: seq<Alerts.Alert>)
    ensures alerts.Some? && alerts.value != [] ==> d == alerts.value
    ensures alerts.None? || alerts.value == [] ==> d == MockAlerts(now)
    ensures d != []
  {
    OrFallback(alerts, MockAlerts(now))
  }

  /** One row of the "Recent Alerts" card. */
  datatype Row = Row(tone: Tone, badge: Variant, title: string, description: string, timestamp: int)

  function RowOf(a: Alerts.Alert): Row {
    Row(BorderTone(a.severity), SeverityBadge(a.severity), a.title, a.description, a.timestamp)
  }

  /** The "Recent Alerts" card: the count badge and the rows. */
  datatype Card = Card(count: nat, rows: seq<Row>)

  /**
   * The badge counts every displayed alert; the rows are the first
   * min(3, n) displayed alerts, in order, each with its border and badge.
   */
  function AlertCard(alerts: Option<seq<Alerts.Alert>>, now: int): (c: Card)
    ensures c.count == |DisplayAlerts(alerts, now)|
    ensures 1 <= |c.rows| == Min(3, c.count)
    ensures forall i :: 0 <= i < |c.rows| ==> c.rows[i] == RowOf(DisplayAlerts(alerts, now)[i])
  {
    var d := DisplayAlerts(alerts, now);
    var top := FirstThree(d);
    Card(|d|, seq(|top|, i requires 0 <= i < |top| => RowOf(top[i])))
  }

  /** With no alerts given, the card shows all three built-in alerts: high, medium, low. */
  lemma EmptyAlertsCard(now: int)
    ensures AlertCard(Some([]), now) == AlertCard(None, now)
    ensures var c := AlertCard(None, now);
      c.count == 3 && c.rows[0].tone == Red && c.rows[1].tone == Yellow && c.rows[2].tone == Blue
  {
  }
}
