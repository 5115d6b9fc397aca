/**
 * Display affordances shared by the dashboard components: the colour of an
 * alert's left border, badge and alert variants, and the first-three slice
 * used by both alert summaries.
 */
module Ui {
  import opened Wrappers

  /** Left-border colour classes: border-l-red-500, border-l-yellow-500, border-l-blue-500. */
  datatype Tone = Red | Yellow | Blue

  /** The variant names passed to Badge and Alert components. */
  datatype Variant = Destructive | Danger | Warning | Success | Default

  /**
   * The border colour ternary written out identically in both dashboards:
   * "high" is red, "medium" is yellow, every other string is blue.
   */
  function BorderTone(severity: string): (t: Tone)
    ensures t == Red <==> severity == "high"
    ensures t == Yellow <==> severity == "medium"
    ensures t == Blue <==> severity != "high" && severity != "medium"
  {
    if severity == "high" then Red
    else if severity == "medium" then Yellow
    else Blue
  }

  /**
   * The badge ternary of the frontend overview card and of the notification
   * list: "high" is destructive, "medium" is warning, every other string is
   * success. It never yields the default variant.
   */
  function SeverityBadge(severity: string): (v: Variant)
    ensures v == Destructive <==> severity == "high"
    ensures v == Warning <==> severity == "medium"
    ensures v == Success <==> severity != "high" && severity != "medium"
  {
    if severity == "high" then Destructive
    else if severity == "medium" then Warning
    else Success
  }

  /** The two severity ternaries agree: a red border always comes with a destructive badge, and so on. */
  lemma BorderMatchesBadge(severity: string)
    ensures BorderTone(severity) == Red <==> SeverityBadge(severity) == Destructive
    ensures BorderTone(severity) == Yellow <==> SeverityBadge(severity) == Warning
    ensures BorderTone(severity) == Blue <==> SeverityBadge(severity) == Success
  {
  }

  function Min(a: int, b: int): int { if a <= b then a else b }

  /** `slice(0, 3)`: the first min(3, n) elements, in their original order. */
  function FirstThree<A>(s: seq<A>): (r: seq<A>)
    ensures |r| == Min(3, |s|)
    ensures r <= s
  {
    if |s| <= 3 then s else s[..3]
  }

  /**
   * `alerts?.length > 0 ? alerts : mockAlerts`: a given, non-empty list is
   * used as it is; an absent or empty one is replaced by the fallback.
   */
  function OrFallback<A>(given: Option<seq<A>>, fallback: seq<A>): (d: seq<A>)
    ensures given.Some? && given.value != [] ==> d == given.value
    ensures given.None? || given.value == [] ==> d == fallback
  {
    if given.Some? && |given.value| > 0 then given.value else fallback
  }

  /** Feeding the displayed list back in changes nothing, whatever the fallback. */
  lemma OrFallbackIdempotent<A>(given: Option<seq<A>>, fallback: seq<A>, other: seq<A>)
    requires fallback != []
    ensures OrFallback(Some(OrFallback(given, fallback)), other) == OrFallback(given, fallback)
  {
  }
}
