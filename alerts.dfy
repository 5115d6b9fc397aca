/**
 * The frontend alert list (frontend/src/components/dashboard/Alerts.jsx):
 * an icon and a variant per severity, and a built-in list used when no
 * alerts are given.
 */
module Alerts {
  import opened Wrappers
  import opened Ui

  /** An alert as the frontend components receive it; `timestamp` in epoch milliseconds. */
  datatype Alert = Alert(id: int, title: string, description: string, severity: string, timestamp: int)

  /** The three lucide icons the list uses. */
  datatype Icon = AlertCircle | AlertTriangle | CheckCircle2

  /** `getAlertIcon`: "medium" a triangle, "low" a check mark, anything else (including "high") a circle. */
  function GetAlertIcon(severity: string): (icon: Icon)
    ensures icon == AlertTriangle <==> severity == "medium"
    ensures icon == CheckCircle2 <==> severity == "low"
    ensures icon == AlertCircle <==> severity != "medium" && severity != "low"
  {
    match severity
    case "high" => AlertCircle
    case "medium" => AlertTriangle
    case "low" => CheckCircle2
    case _ => AlertCircle
  }

  /** `getAlertVariant`: one variant per known severity and "default" for any other string. */
  function GetAlertVariant(severity: string): (v: Variant)
    ensures v == Destructive <==> severity == "high"
    ensures v == Warning <==> severity == "medium"
    ensures v == Success <==> severity == "low"
    ensures v == Default <==> severity != "high" && severity != "medium" && severity != "low"
    ensures v != Danger
  {
    match severity
    case "high" => Destructive
    case "medium" => Warning
    case "low" => Success
    case _ => Default
  }

  /** An unknown severity borrows the high icon but not the high variant. */
  lemma UnknownSeverityLooksHigh(severity: string)
    requires severity != "high" && severity != "medium" && severity != "low"
    ensures GetAlertIcon(severity) == GetAlertIcon("high")
    ensures GetAlertVariant(severity) != GetAlertVariant("high")
  {
  }

  /**
   * This list and the overview card agree on the three known severities; for
   * any other string the list shows "default" where the card shows "success".
   */
  lemma VariantAgreesWithCardBadge(severity: string)
    ensures severity == "high" || severity == "medium" || severity == "low" ==>
      GetAlertVariant(severity) == SeverityBadge(severity)
    ensures severity != "high" && severity != "medium" && severity != "low" ==>
      GetAlertVariant(severity) == Default && SeverityBadge(severity) == Success
  {
  }

  const HighText := "Your heart rate has exceeded the normal range. Please take a break and monitor your condition."
  const MediumText := "Your blood pressure is slightly elevated. Consider reducing salt intake and increasing physical activity."
  const LowText := "Your blood glucose levels are within normal range. Keep maintaining your healthy lifestyle."

  /** The built-in alerts, stamped now, one hour ago and two hours ago. */
  function MockAlerts(now: int): (alerts: seq<Alert>)
    ensures |alerts| == 3
    ensures alerts[0].severity == "high" && alerts[1].severity == "medium" && alerts[2].severity == "low"
    ensures alerts[0].timestamp == now && alerts[1].timestamp == now - 3600000 && alerts[2].timestamp == now - 7200000
  {
    [ Alert(1, "High Heart Rate Alert", HighText, "high", now),
      Alert(2, "Blood Pressure Warning", MediumText, "medium", now - 3600000),
      Alert(3, "Blood Glucose Update", LowText, "low", now - 7200000) ]
  }

  /** `displayAlerts`: the given alerts when there are any, the built-in three otherwise. */
  function DisplayAlerts(alerts: Option<seq<Alert>>, now: int): (d: seq<Alert>)
    ensures alerts.Some? && alerts.value != [] ==> d == alerts.value
    ensures alerts.None? || alerts.value == [] ==> d == MockAlerts(now)
    ensures d != []
  {
    OrFallback(alerts, MockAlerts(now))
  }

  /** One rendered `<Alert>`: its variant, its icon, and the alert's own text. */
  datatype AlertView = AlertView(variant: Variant, icon: Icon, title: string, description: string, timestamp: int)

  function View(a: Alert): AlertView {
    AlertView(GetAlertVariant(a.severity), GetAlertIcon(a.severity), a.title, a.description, a.timestamp)
  }

  /** `displayAlerts.map(...)`: every displayed alert, in order, none dropped. */
  function RenderAlerts(alerts: Option<seq<Alert>>, now: int): (views: seq<AlertView>)
    ensures |views| == |DisplayAlerts(alerts, now)|
    ensures forall i :: 0 <= i < |views| ==>
      var a := DisplayAlerts(alerts, now)[i];
      views[i].title == a.title && views[i].description == a.description &&
      views[i].variant == GetAlertVariant(a.severity) && views[i].icon == GetAlertIcon(a.severity)
  {
    var d := DisplayAlerts(alerts, now);
    seq(|d|, i requires 0 <= i < |d| => View(d[i]))
  }
}
