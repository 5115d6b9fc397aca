/**
 * The stat card (frontend/src/components/stat-card.jsx): a trend colour and
 * arrow picked by the sign of the trend, and the trend's absolute value.
 * `trend` is `None` when the prop is not passed at all (`undefined`).
 */
module StatCard {
  import opened Wrappers
  import opened Readings

  /** The colour classes text-green-500, text-red-500 and text-gray-500. */
  datatype Color = Green | Red | Gray

  /** `trend > 0`: false for `undefined` and for NaN. */
  predicate IsRising(trend: Option<TrendValue>) {
    trend.Some? && trend.value.Percent? && trend.value.value > 0
  }

  /** `trend < 0`: false for `undefined` and for NaN. */
  predicate IsFalling(trend: Option<TrendValue>) {
    trend.Some? && trend.value.Percent? && trend.value.value < 0
  }

  /** `trendColor`: green when rising, red when falling, gray for 0, NaN and `undefined`. */
  function TrendColor(trend: Option<TrendValue>): (c: Color)
    ensures c == Green <==> IsRising(trend)
    ensures c == Red <==> IsFalling(trend)
    ensures c == Gray <==> !IsRising(trend) && !IsFalling(trend)
  {
    if IsRising(trend) then Green else if IsFalling(trend) then Red else Gray
  }

  /** `trendIcon`: an up arrow when rising, a down arrow when falling, a right arrow otherwise. */
  function TrendIcon(trend: Option<TrendValue>): (arrow: char)
    ensures arrow == '↑' <==> IsRising(trend)
    ensures arrow == '↓' <==> IsFalling(trend)
    ensures arrow == '→' <==> !IsRising(trend) && !IsFalling(trend)
  {
    if IsRising(trend) then '↑' else if IsFalling(trend) then '↓' else '→'
  }

  /** Colour and arrow always tell the same story. */
  lemma ColorMatchesArrow(trend: Option<TrendValue>)
    ensures TrendColor(trend) == Green <==> TrendIcon(trend) == '↑'
    ensures TrendColor(trend) == Red <==> TrendIcon(trend) == '↓'
    ensures TrendColor(trend) == Gray <==> TrendIcon(trend) == '→'
  {
  }

  /** `Math.abs(trend)`: never negative; NaN stays NaN. */
  function Magnitude(t: TrendValue): (m: TrendValue)
    ensures m.NaN? <==> t.NaN?
    ensures m.Percent? ==> m.value >= 0 && (m.value == t.value || m.value == -t.value)
  {
    match t
    case NaN => NaN
    case Percent(v) => Percent(if v < 0 then -v else v)
  }

  /** Reading a card back: the magnitude, negated when the colour is red. */
  function ShownTrend(c: Color, m: TrendValue): TrendValue {
    if c == Red && m.Percent? then Percent(-m.value) else m
  }

  /** The sign lives only in the colour: colour and magnitude together give back the trend. */
  lemma ColorAndMagnitudeGiveTrend(t: TrendValue)
    ensures ShownTrend(TrendColor(Some(t)), Magnitude(t)) == t
    ensures t.Percent? ==> Magnitude(t) == Magnitude(Percent(-t.value))
  {
  }

  /** `description || trend !== undefined`: an empty description does not count. */
  function TrendRowVisible(description: Option<string>, trend: Option<TrendValue>): (visible: bool)
    ensures visible <==> (description.Some? && description.value != "") || trend.Some?
  {
    (description.Some? && |description.value| > 0) || trend.Some?
  }
}
