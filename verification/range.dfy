/**
 * How many days the pellets in the hopper last.
 *
 * The current integration divides the hopper content by a daily burn rate
 * that blends yesterday's real consumption (70 %) with today's total
 * forecast (30 %), falling back to whichever of the two is positive. The
 * older integration divides by today's forecast plus today's consumption.
 * Both show 99 days when the rate is below half a kilogram a day.
 */
module Range {
  import opened Wrappers
  import opened Reals
  import opened Text
  import opened Json
  import opened Entity

  /** Below this many kg per day the range is shown as 99 days. */
  const MinDailyBurnKg: real := 0.5
  const EndlessDays: real := 99.0


  /**
   * The daily burn rate of the current integration: 0.7 × yesterday +
   * 0.3 × forecast when both are positive, otherwise yesterday when it is
   * positive, otherwise the forecast.
   */
  function BurnRate(yesterday: real, forecast: real): (r: real)
    ensures yesterday > 0.0 && forecast > 0.0 ==> Min(yesterday, forecast) <= r <= Max(yesterday, forecast)
    ensures yesterday > 0.0 && forecast > 0.0 ==> r - forecast == (yesterday - forecast) * 0.7
    ensures yesterday > 0.0 && forecast <= 0.0 ==> r == yesterday
    ensures yesterday <= 0.0 ==> r == forecast
    ensures yesterday > 0.0 || forecast > 0.0 ==> r > 0.0
  {
    if yesterday > 0.0 && forecast > 0.0 then yesterday * 0.7 + forecast * 0.3
    else if yesterday > 0.0 then yesterday
    else forecast
  }

  /**
   * Days of pellets left at `rate` kg per day: 99 below the minimum rate,
   * otherwise hopper / rate.
   */
  function DaysLeft(hopper: real, rate: real): (r: real)
    ensures rate < MinDailyBurnKg ==> r == EndlessDays
    ensures rate >= MinDailyBurnKg ==> r * rate == hopper
    ensures rate >= MinDailyBurnKg && hopper >= 0.0 ==> r >= 0.0
  {
    if rate < MinDailyBurnKg then EndlessDays else hopper / rate
  }

  /**
   * The current integration's range: hopper content and yesterday's
   * consumption come from the payload and must be numbers (otherwise the
   * sensor shows nothing), the forecast is the total-forecast sensor's state.
   */
  function RangeDays(data: Json, forecastTotal: Option<EntityState>): (r: Option<real>)
    ensures r.None? <==>
      FloatOf(ApiData(data, "frontdata.hoppercontent", JFloat(0.0, "0.0"))).Failure? ||
      FloatOf(ApiData(data, "stats.yesterday", JFloat(0.0, "0.0"))).Failure?
    ensures !Truthy(data) ==> r.Some? && (r.value == EndlessDays || r.value == 0.0)
    ensures r.Some? ==> r.value == DaysLeft(
      FloatOf(ApiData(data, "frontdata.hoppercontent", JFloat(0.0, "0.0"))).value,
      BurnRate(FloatOf(ApiData(data, "stats.yesterday", JFloat(0.0, "0.0"))).value, ValueSafely(forecastTotal, 0.0)))
  {
    match FloatOf(ApiData(data, "frontdata.hoppercontent", JFloat(0.0, "0.0")))
    case Failure(_) => None
    case Success(hopper) =>
      match FloatOf(ApiData(data, "stats.yesterday", JFloat(0.0, "0.0")))
      case Failure(_) => None
      case Success(yesterday) =>
        Some(DaysLeft(hopper, BurnRate(yesterday, ValueSafely(forecastTotal, 0.0))))
  }

  /**
   * The older integration's range: hopper content, today's forecast and
   * today's consumption are all host entity states read with a default of 0,
   * so the sensor always shows a number.
   */
  function LegacyRangeDays(hopper: Option<EntityState>, forecastTotal: Option<EntityState>,
                           consumedToday: Option<EntityState>): (r: real)
    ensures forecastTotal.None? && consumedToday.None? ==> r == EndlessDays
    ensures r == DaysLeft(ValueSafely(hopper, 0.0), ValueSafely(forecastTotal, 0.0) + ValueSafely(consumedToday, 0.0))
  {
    DaysLeft(ValueSafely(hopper, 0.0), ValueSafely(forecastTotal, 0.0) + ValueSafely(consumedToday, 0.0))
  }

  // ---------------------------------------------------------------------
  // Properties

  /** At a fixed burn rate, more pellets never mean fewer days. */
  lemma DaysLeftMonotone(hopper1: real, hopper2: real, rate: real)
    requires hopper1 <= hopper2
    ensures DaysLeft(hopper1, rate) <= DaysLeft(hopper2, rate)
  {
    if rate >= MinDailyBurnKg {
      var d1 := DaysLeft(hopper1, rate);
      var d2 := DaysLeft(hopper2, rate);
      assert (d2 - d1) * rate == hopper2 - hopper1;
      if d2 < d1 {
        PositiveProduct(d1 - d2, rate);
      }
    }
  }

  /** With the same pellets, a faster burn never means more days (once the rate counts). */
  lemma DaysLeftAntitone(hopper: real, rate1: real, rate2: real)
    requires hopper >= 0.0
    requires MinDailyBurnKg <= rate1 <= rate2
    ensures DaysLeft(hopper, rate2) <= DaysLeft(hopper, rate1)
  {
    var d1 := DaysLeft(hopper, rate1);
    var d2 := DaysLeft(hopper, rate2);
    assert d1 * rate1 == d2 * rate2;
    assert d2 * (rate2 - rate1) >= 0.0 by {
      NonNegativeProduct(d2, rate2 - rate1);
    }
  }



  /** 47 kg in the hopper, 10 kg burnt yesterday and 8 kg forecast give a 9.4 kg rate and 5 days. */
  lemma RangeExample()
    ensures DaysLeft(47.0, BurnRate(10.0, 8.0)) == 5.0
  {
    assert BurnRate(10.0, 8.0) == 9.4;
  }
}
