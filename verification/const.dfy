/**
 * The physical constants of the DHW (domestic hot water) model and the
 * weather-zone attribute names, as the integration defines them.
 */
module Const {
  /** Heat needed to warm one litre of water by one kelvin, in kWh. */
  const SpecificHeatWaterKwh: real := 0.00116

  /** Energy content of one kilogram of pellets, in kWh. */
  const PelletCalorificKwh: real := 4.8

  /** Share of the pellet energy that ends up in the hot-water tank. */
  const BoilerEfficiencyDhw: real := 0.85

  /** Standby loss of the tank and its circulation, in kg of pellets per hour. */
  const StandbyLossKgPerHour: real := 0.02

  /** Readable names for the per-zone weather-compensation keys. */
  const WeatherZoneTranslations: seq<(string, string)> := [
    ("actual", "current_flow_temp"),
    ("wanted", "wanted_flow_temp"),
    ("calc", "avarage_temp"),
    ("actualref", "current_temp"),
    ("valve", "valve_position"),
    ("active", "zone_active")
  ]

  /** Pellets needed to heat `liters` of water by `kelvins`, in kg. */
  function ReheatKg(liters: real, kelvins: real): (r: real)
    ensures liters >= 0.0 && kelvins >= 0.0 ==> r >= 0.0
    ensures r * (PelletCalorificKwh * BoilerEfficiencyDhw) == liters * kelvins * SpecificHeatWaterKwh
  {
    liters * kelvins * SpecificHeatWaterKwh / (PelletCalorificKwh * BoilerEfficiencyDhw)
  }
}
