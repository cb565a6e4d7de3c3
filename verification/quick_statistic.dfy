/** The dashboard's statistic tile: a value with a progress bar and an optional trend. */
module QuickStatistic {
  import opened Wrappers

  /** `Math.min(Math.max(value, 0), 100)`, the bar's width in percent. */
  function BarWidth(value: real): (w: real)
    ensures 0.0 <= w <= 100.0
    ensures 0.0 <= value <= 100.0 ==> w == value
    ensures value < 0.0 ==> w == 0.0
    ensures value > 100.0 ==> w == 100.0
  {
    var atLeastZero := if value > 0.0 then value else 0.0;
    if atLeastZero < 100.0 then atLeastZero else 100.0
  }

  /** Clamping a width again changes nothing, and a larger value never gives a narrower bar. */
  lemma {:induction false} BarWidthIdempotentMonotone(value: real, larger: real)
    requires value <= larger
    ensures BarWidth(BarWidth(value)) == BarWidth(value)
    ensures BarWidth(value) <= BarWidth(larger)
  {
  }

  /** The trend's percentage as shown: green with a `+` when positive, red with no sign
      of ours when negative. */
  datatype TrendBadge = TrendBadge(colour: string, prefix: string)

  /** `trend = 0` when the prop is not given. */
  function TrendValue(trend: Option<real>): (t: real)
    ensures trend.None? ==> t == 0.0
    ensures trend.Some? ==> t == trend.value
  {
    trend.GetOr(0.0)
  }

  /** `trend !== 0 && <span …>`. */
  function TrendIndicator(trend: Option<real>): (b: Option<TrendBadge>)
    ensures b.None? <==> TrendValue(trend) == 0.0
    ensures b.Some? ==> (b.value.prefix == "+" <==> TrendValue(trend) > 0.0)
    ensures b.Some? ==> (b.value.colour == "text-green-600" <==> TrendValue(trend) > 0.0)
    ensures b.Some? ==> (b.value.colour == "text-red-600" <==> TrendValue(trend) < 0.0)
  {
    var t := TrendValue(trend);
    if t == 0.0 then None
    else Some(TrendBadge(if t > 0.0 then "text-green-600" else "text-red-600", if t > 0.0 then "+" else ""))
  }

  /** A tile given no trend shows none. */
  lemma NoTrendByDefault()
    ensures TrendIndicator(None) == None
  {
  }
}
