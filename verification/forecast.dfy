/**
 * The two forecasts of the current integration.
 *
 * `StokerUnifiedForecastSensor` projects today's pellet use per building:
 * what was burnt so far plus the index-based demand for the rest of the day,
 * a DHW (domestic hot water) reheat when the tank is below its hysteresis
 * band, and the tank's standby loss. Any exception makes it show 0.
 *
 * `StokerForecastSensor` is the static model: either a full reheat of the
 * tank, or index × (target − outdoor) for a building. It remembers its last
 * positive value and shows that instead of a result that is not positive or
 * an exception.
 */
module Forecast {
  import opened Wrappers
  import opened Reals
  import opened Json
  import opened Entity
  import opened Const


  /** Which part of the projection a unified sensor shows. */
  datatype Target = House | Office | Dhw | Total

  /** Whether a sensor shows kilograms or money. */
  datatype Unit = Weight | Cost

  /** The host states the unified forecast reads, and the payload. */
  datatype UnifiedInputs = UnifiedInputs(
    data: Json,
    windFactor: Option<EntityState>,
    houseTarget: Option<EntityState>,
    houseIndex: Option<EntityState>,
    houseConsumed: Option<EntityState>,
    officeSwitch: Option<EntityState>,
    officeTarget: Option<EntityState>,
    officeIndex: Option<EntityState>,
    officeConsumed: Option<EntityState>,
    tankVolume: Option<EntityState>,
    pelletPrice: Option<EntityState>)

  /** Today's projection per consumer, in kg. */
  datatype Projection = Projection(house: real, office: real, dhw: real)

  /** Hours left until midnight at `hour`:`minute` of the local clock. */
  function HoursLeft(hour: nat, minute: nat): (r: real)
    ensures 0.0 <= r <= 24.0
    ensures hour < 24 && minute < 60 ==> r > 0.0
    ensures hour * 60 + minute <= 1440 ==> r * 60.0 == (1440 - hour * 60 - minute) as real
  {
    var passed := hour * 60 + minute;
    (if passed < 1440 then 1440 - passed else 0) as real / 60.0
  }

  /**
   * The wind multiplier of the unified forecast: 1 + speed × factor, where
   * the factor is the wind-factor entity's state in percent (5 % when the
   * entity is missing). A wind speed or factor that does not parse leaves
   * the multiplier at 1.
   */
  function WindMultiplier(wd: Json, windFactor: Option<EntityState>): (r: real)
    ensures WeatherReading(wd, "2").Failure? ==> r == 1.0
    ensures WeatherReading(wd, "2").Success? && windFactor.None? ==>
      r == 1.0 + WeatherReading(wd, "2").value * 0.05
    ensures WeatherReading(wd, "2").Success? && windFactor.Some? ==>
      r == EntityWindMultiplier(WeatherReading(wd, "2").value, FloatOfString(windFactor.value.state))
  {
    var speed := WeatherReading(wd, "2");
    if speed.Failure? then 1.0
    else if windFactor.None? then 1.0 + speed.value * 0.05
    else EntityWindMultiplier(speed.value, FloatOfString(windFactor.value.state))
  }

  /**
   * The wind multiplier when the wind-factor entity exists, given how its
   * state parses: the state is the factor in percent; a state that does not
   * parse leaves the multiplier at 1.
   */
  function EntityWindMultiplier(speed: real, percent: Result<real, Fault>): (r: real)
    ensures percent.Success? ==> r == 1.0 + speed * percent.value / 100.0
    ensures percent.Failure? ==> r == 1.0
  {
    match percent
    case Failure(_) => 1.0
    case Success(p) => 1.0 + speed * (p / 100.0)
  }

  /**
   * The pellets a DHW reheat needs: the full gap from the current to the
   * wanted temperature, but only once the tank has cooled below the
   * hysteresis band.
   */
  function DhwReheat(volume: real, wanted: real, current: real, hysteresis: real): (r: real)
    ensures current >= wanted - hysteresis ==> r == 0.0
    ensures current < wanted - hysteresis ==> r == ReheatKg(volume, Max(0.0, wanted - current))
    ensures volume >= 0.0 ==> r >= 0.0
  {
    if current < wanted - hysteresis then ReheatKg(volume, Max(0.0, wanted - current)) else 0.0
  }

  /**
   * A building's projection: what it burnt today plus, while it heats,
   * index × ΔT / 24 for every hour left, where ΔT is the wind-scaled
   * difference between target and outdoor temperature (never negative).
   */
  function BuildingForecast(consumed: real, index: real, target: real, outdoor: real, wind: real,
                            hoursLeft: real, heating: bool): (r: real)
    ensures !heating ==> r == consumed
    ensures heating ==> (r - consumed) * 24.0 == index * Max(0.0, (target - outdoor) * wind) * hoursLeft
    ensures heating && index >= 0.0 && hoursLeft >= 0.0 ==> r >= consumed
  {
    var deltaT := Max(0.0, (target - outdoor) * wind);
    if heating then
      var perHour := index * deltaT / 24.0;
      assert index >= 0.0 && hoursLeft >= 0.0 ==> perHour * hoursLeft >= 0.0 by {
        if index >= 0.0 && hoursLeft >= 0.0 {
          NonNegativeProduct(index, deltaT);
          NonNegativeProduct(perHour, hoursLeft);
        }
      }
      consumed + perHour * hoursLeft
    else consumed
  }

  /** `stats.dhw_day`: the kilograms burnt on hot water today (0 when absent). */
  function DhwBurntToday(data: Json): Result<real, Fault> {
    NestedFloat(data, "stats", "dhw_day", JFloat(0.0, "0.0"))
  }

  /** `frontdata.dhwwanted`: the wanted tank temperature (50 °C when absent). */
  function DhwWanted(data: Json): Result<real, Fault> {
    NestedFloat(data, "frontdata", "dhwwanted", JFloat(50.0, "50.0"))
  }

  /** `dhwdata.8`: the tank temperature (40 °C when absent). */
  function TankTemperature(data: Json): Result<real, Fault> {
    NestedFloat(data, "dhwdata", "8", JFloat(40.0, "40.0"))
  }

  /** `dhwdata.3`: the tank's hysteresis (5 K when absent). */
  function TankHysteresis(data: Json): Result<real, Fault> {
    NestedFloat(data, "dhwdata", "3", JFloat(5.0, "5.0"))
  }

  /** `frontdata.dhw`: the DHW reading the static model checks first (40 °C when absent). */
  function FrontDhw(data: Json): Result<real, Fault> {
    NestedFloat(data, "frontdata", "dhw", JFloat(40.0, "40.0"))
  }

  /**
   * The DHW projection: what the boiler burnt on hot water today, the reheat
   * the tank needs now, and the standby loss until midnight. Raises when the
   * payload's readings are not numbers or its sections are not dictionaries.
   */
  function DhwForecast(data: Json, tankVolume: Option<EntityState>, hoursLeft: real): (r: Result<real, Fault>)
    ensures r.Success? <==> DhwBurntToday(data).Success? && DhwWanted(data).Success?
                            && TankTemperature(data).Success? && TankHysteresis(data).Success?
    ensures r.Success? ==>
      (DhwBurntToday(data).Success? && DhwWanted(data).Success?
       && TankTemperature(data).Success? && TankHysteresis(data).Success?
       && r.value == DhwBurntToday(data).value
                     + DhwReheat(ValueSafely(tankVolume, 200.0), DhwWanted(data).value, TankTemperature(data).value, TankHysteresis(data).value)
                     + StandbyLossKgPerHour * hoursLeft)
    ensures r.Success? && ValueSafely(tankVolume, 200.0) >= 0.0 ==>
      r.value >= DhwBurntToday(data).value + StandbyLossKgPerHour * hoursLeft
  {
    var consumed :- DhwBurntToday(data);
    var wanted :- DhwWanted(data);
    var current :- TankTemperature(data);
    var hysteresis :- TankHysteresis(data);
    var volume := ValueSafely(tankVolume, 200.0);
    Success(consumed + DhwReheat(volume, wanted, current, hysteresis) + StandbyLossKgPerHour * hoursLeft)
  }

  /**
   * Today's projection, or the exception that makes the sensor show 0: the
   * payload must be a dictionary (the weather lookup raises otherwise), so
   * must its weather section, and the DHW readings must be numbers.
   */
  function Project(inp: UnifiedInputs, hour: nat, minute: nat): (r: Result<Projection, Fault>)
    ensures !inp.data.JObj? ==> r.Failure?
    ensures r.Success? <==> inp.data.JObj? && GetOr(inp.data.fields, "weatherdata", JObj([])).JObj?
                            && DhwForecast(inp.data, inp.tankVolume, HoursLeft(hour, minute)).Success?
    ensures r.Success? ==>
      var wd := GetOr(inp.data.fields, "weatherdata", JObj([]));
      r.value.house == BuildingForecast(ValueSafely(inp.houseConsumed, 0.0), ValueSafely(inp.houseIndex, 0.8),
        ValueSafely(inp.houseTarget, 23.0), OutdoorTemperature(wd), WindMultiplier(wd, inp.windFactor), HoursLeft(hour, minute), true)
    ensures r.Success? ==>
      var wd := GetOr(inp.data.fields, "weatherdata", JObj([]));
      r.value.office == BuildingForecast(ValueSafely(inp.officeConsumed, 0.0), ValueSafely(inp.officeIndex, 0.6),
        ValueSafely(inp.officeTarget, 18.0), OutdoorTemperature(wd), WindMultiplier(wd, inp.windFactor), HoursLeft(hour, minute),
        InState(inp.officeSwitch, "on"))
    ensures r.Success? && !InState(inp.officeSwitch, "on") ==> r.value.office == ValueSafely(inp.officeConsumed, 0.0)
    ensures r.Success? ==> DhwForecast(inp.data, inp.tankVolume, HoursLeft(hour, minute)) == Success(r.value.dhw)
  {
    if !inp.data.JObj? then Failure(AttributeError)
    else
      var hoursLeft := HoursLeft(hour, minute);
      var wd := GetOr(inp.data.fields, "weatherdata", JObj([]));
      if !wd.JObj? then Failure(AttributeError)
      else
        var outdoor := OutdoorTemperature(wd);
        var wind := WindMultiplier(wd, inp.windFactor);
        var house := BuildingForecast(ValueSafely(inp.houseConsumed, 0.0), ValueSafely(inp.houseIndex, 0.8),
          ValueSafely(inp.houseTarget, 23.0), outdoor, wind, hoursLeft, true);
        var office := BuildingForecast(ValueSafely(inp.officeConsumed, 0.0), ValueSafely(inp.officeIndex, 0.6),
          ValueSafely(inp.officeTarget, 18.0), outdoor, wind, hoursLeft, InState(inp.officeSwitch, "on"));
        var dhw :- DhwForecast(inp.data, inp.tankVolume, hoursLeft);
        Success(Projection(house, office, dhw))
  }

  /** The kilograms a target shows. */
  function Pick(p: Projection, target: Target): (r: real)
    ensures target == House ==> r == p.house
    ensures target == Office ==> r == p.office
    ensures target == Dhw ==> r == p.dhw
    ensures target == Total ==> r == p.house + p.office + p.dhw
  {
    match target
    case House => p.house
    case Office => p.office
    case Dhw => p.dhw
    case Total => p.house + p.office + p.dhw
  }

  /** A projection as shown: 0 after an exception, else kilograms or kilograms × price per tonne / 1000. */
  function Show(p: Result<Projection, Fault>, target: Target, unit: Unit, pricePerTonne: real): (r: real)
    ensures p.Failure? ==> r == 0.0
    ensures p.Success? && unit == Weight ==> r == Pick(p.value, target)
    ensures p.Success? && unit == Cost ==> r == Pick(p.value, target) * (pricePerTonne / 1000.0)
  {
    match p
    case Failure(_) => 0.0
    case Success(p) =>
      var kg := Pick(p, target);
      if unit == Weight then kg else kg * (pricePerTonne / 1000.0)
  }

  /**
   * What a unified forecast sensor shows: the chosen projection in kg, or
   * priced with the pellet price per tonne (1250 when unknown); 0 when the
   * projection raised.
   */
  function Unified(target: Target, unit: Unit, inp: UnifiedInputs, hour: nat, minute: nat): (r: real)
    ensures !inp.data.JObj? ==> r == 0.0
    ensures Project(inp, hour, minute).Failure? ==> r == 0.0
    ensures Project(inp, hour, minute).Success? && unit == Weight ==> r == Pick(Project(inp, hour, minute).value, target)
    ensures Project(inp, hour, minute).Success? && unit == Cost ==>
      r == Pick(Project(inp, hour, minute).value, target) * (ValueSafely(inp.pelletPrice, 1250.0) / 1000.0)
  {
    Show(Project(inp, hour, minute), target, unit, ValueSafely(inp.pelletPrice, 1250.0))
  }

  /**
   * When the projection succeeds, the weight sensors show the buildings'
   * projections and the DHW projection: what was burnt plus the index
   * model's demand until midnight, and the burn, reheat and standby loss.
   */
  lemma UnifiedWeightShowsProjection(inp: UnifiedInputs, hour: nat, minute: nat)
    requires Project(inp, hour, minute).Success?
    ensures
      var wd := GetOr(inp.data.fields, "weatherdata", JObj([]));
      Unified(House, Weight, inp, hour, minute) ==
        BuildingForecast(ValueSafely(inp.houseConsumed, 0.0), ValueSafely(inp.houseIndex, 0.8), ValueSafely(inp.houseTarget, 23.0),
                         OutdoorTemperature(wd), WindMultiplier(wd, inp.windFactor), HoursLeft(hour, minute), true)
    ensures
      var wd := GetOr(inp.data.fields, "weatherdata", JObj([]));
      Unified(Office, Weight, inp, hour, minute) ==
        BuildingForecast(ValueSafely(inp.officeConsumed, 0.0), ValueSafely(inp.officeIndex, 0.6), ValueSafely(inp.officeTarget, 18.0),
                         OutdoorTemperature(wd), WindMultiplier(wd, inp.windFactor), HoursLeft(hour, minute),
                         InState(inp.officeSwitch, "on"))
    ensures Unified(Dhw, Weight, inp, hour, minute) == DhwForecast(inp.data, inp.tankVolume, HoursLeft(hour, minute)).value
  {
  }


  /** A cost sensor shows its weight sibling's kilograms at the pellet price per kilogram. */
  lemma ShowCost(p: Result<Projection, Fault>, target: Target, price: real)
    ensures Show(p, target, Cost, price) == Show(p, target, Weight, price) * (price / 1000.0)
  {
  }

  lemma ShowTotal(p: Result<Projection, Fault>, unit: Unit, price: real)
    ensures Show(p, Total, unit, price) == Show(p, House, unit, price) + Show(p, Office, unit, price) + Show(p, Dhw, unit, price)
  {
    if p.Success? && unit == Cost {
      var q := p.value;
      var k := price / 1000.0;
      assert (q.house + q.office + q.dhw) * k == q.house * k + q.office * k + q.dhw * k;
    }
  }

  /** The total shows the sum of what the house, office and DHW sensors show, in kg and in money. */
  lemma {:induction false} UnifiedTotalIsSumOfParts(unit: Unit, inp: UnifiedInputs, hour: nat, minute: nat)
    ensures Unified(Total, unit, inp, hour, minute) ==
      Unified(House, unit, inp, hour, minute) + Unified(Office, unit, inp, hour, minute) + Unified(Dhw, unit, inp, hour, minute)
  {
    ShowTotal(Project(inp, hour, minute), unit, ValueSafely(inp.pelletPrice, 1250.0));
  }

  /**
   * With the tank inside its hysteresis band the DHW projection is what was
   * burnt today plus the standby loss until midnight.
   */
  lemma WarmTankProjectsStandbyOnly(data: Json, tankVolume: Option<EntityState>, hoursLeft: real)
    requires DhwForecast(data, tankVolume, hoursLeft).Success?
    requires TankTemperature(data).value >= DhwWanted(data).value - TankHysteresis(data).value
    ensures DhwForecast(data, tankVolume, hoursLeft).value == DhwBurntToday(data).value + StandbyLossKgPerHour * hoursLeft
  {
  }

  // ---------------------------------------------------------------------
  // The static forecast

  /**
   * Configuration of a static forecast: the DHW model (`fixed`) or the
   * building model; for a building, whether the insulation slider is always
   * used (simulation) or only when the learned index is unusable; and
   * whether the result is shown in kg or in money.
   */
  datatype StaticConfig = StaticConfig(fixed: bool, forceSlider: bool, returnKg: bool)

  datatype StaticInputs = StaticInputs(
    data: Json,
    pelletPrice: Option<EntityState>,
    tankVolume: Option<EntityState>,
    efficiency: Option<EntityState>,
    slider: Option<EntityState>,
    targetTemp: Option<EntityState>)

  /** What the static sensor shows and the last positive value it remembers. */
  datatype Shown = Shown(value: real, lastValid: real)

  /** Price per kg: the price entity's state per tonne / 1000, or 1.2; raises on a state that does not parse. */
  function PricePerKg(e: Option<EntityState>): (r: Result<real, Fault>)
    ensures r.Success? ==> r.value * 1000.0 == ValueSafely(e, 1200.0)
    ensures r.Failure? <==> StateOrDefault(e, 1200.0).Failure?
  {
    if e.Some? && !Unusable(e.value.state) then
      match FloatOfString(e.value.state)
      case Success(v) => Success(v / 1000.0)
      case Failure(f) => Failure(f)
    else Success(1.2)
  }

  /** The learned index is present, not a placeholder and not exactly "0.0" or "0". */
  predicate LearnedIndexUsable(e: Option<EntityState>) {
    e.Some? && !Unusable(e.value.state) && e.value.state != "0.0" && e.value.state != "0"
  }

  /**
   * The building's index: the slider in simulation; otherwise the learned
   * index unless it is missing, a placeholder or exactly "0.0"/"0", then the
   * slider; 0.6 when the slider is unusable too.
   */
  function BuildingIndex(cfg: StaticConfig, inp: StaticInputs): (r: Result<real, Fault>)
    ensures cfg.forceSlider ==> r == StateOrDefault(inp.slider, 0.6)
    ensures !cfg.forceSlider && LearnedIndexUsable(inp.efficiency) ==> r == FloatOfString(inp.efficiency.value.state)
    ensures !cfg.forceSlider && !LearnedIndexUsable(inp.efficiency) ==> r == StateOrDefault(inp.slider, 0.6)
    ensures !cfg.forceSlider && inp.efficiency.Some? && inp.efficiency.value.state in ["0.0", "0"] ==>
      r == StateOrDefault(inp.slider, 0.6)
  {
    if cfg.forceSlider then StateOrDefault(inp.slider, 0.6)
    else if LearnedIndexUsable(inp.efficiency) then
      FloatOfString(inp.efficiency.value.state)
    else StateOrDefault(inp.slider, 0.6)
  }

  /**
   * The static DHW model: nothing while the front-page DHW reading is 0,
   * otherwise a reheat of the whole tank from its temperature to 10 K above
   * the wanted one.
   */
  function StaticDhwKg(inp: StaticInputs): (r: Result<real, Fault>)
    ensures FrontDhw(inp.data) == Success(0.0) ==> r == Success(0.0)
    ensures FrontDhw(inp.data).Failure? ==> r.Failure?
    ensures FrontDhw(inp.data).Success? && FrontDhw(inp.data).value != 0.0 ==>
      (r.Success? <==> StateOrDefault(inp.tankVolume, 200.0).Success? && DhwWanted(inp.data).Success?
                       && TankTemperature(inp.data).Success?)
    ensures r.Success? && FrontDhw(inp.data) != Success(0.0) ==>
      (DhwWanted(inp.data).Success? && TankTemperature(inp.data).Success?
       && r.value == ReheatKg(ValueSafely(inp.tankVolume, 200.0),
                              Max(0.0, DhwWanted(inp.data).value + 10.0 - TankTemperature(inp.data).value)))
    ensures r.Success? && ValueSafely(inp.tankVolume, 200.0) >= 0.0 ==> r.value >= 0.0
  {
    var dhwTemp :- FrontDhw(inp.data);
    if dhwTemp == 0.0 then Success(0.0)
    else
      var volume :- StateOrDefault(inp.tankVolume, 200.0);
      var wanted :- DhwWanted(inp.data);
      var actual :- TankTemperature(inp.data);
      Success(ReheatKg(volume, Max(0.0, wanted + 10.0 - actual)))
  }

  /**
   * The static building model: index × (target − outdoor), never negative.
   * A weather reading that is not a number counts as 0 °C; a weather
   * section that is not a dictionary raises.
   */
  function StaticBuildingKg(cfg: StaticConfig, inp: StaticInputs): (r: Result<real, Fault>)
    ensures r.Success? <==> BuildingIndex(cfg, inp).Success? && WeatherData(inp.data).Success?
                            && WeatherReading(WeatherData(inp.data).value, "1") != Failure(AttributeError)
                            && StateOrDefault(inp.targetTemp, 22.0).Success?
    ensures r.Success? ==>
      (BuildingIndex(cfg, inp).Success? && WeatherData(inp.data).Success? && StateOrDefault(inp.targetTemp, 22.0).Success?
       && r.value == StaticDemand(BuildingIndex(cfg, inp).value, StateOrDefault(inp.targetTemp, 22.0).value,
                                  OutdoorTemperature(WeatherData(inp.data).value)))
  {
    var index :- BuildingIndex(cfg, inp);
    var wd :- WeatherData(inp.data);
    var outdoor :- match WeatherReading(wd, "1")
      case Failure(AttributeError) => Failure(AttributeError)
      case Failure(_) => Success(0.0)
      case Success(t) => Success(t);
    var target :- StateOrDefault(inp.targetTemp, 22.0);
    Success(StaticDemand(index, target, outdoor))
  }

  /** A day's demand of the static building model: index × (target − outdoor), nothing when it is warmer outside. */
  function StaticDemand(index: real, target: real, outdoor: real): (r: real)
    ensures target <= outdoor ==> r == 0.0
    ensures target > outdoor ==> r == index * (target - outdoor)
    ensures index >= 0.0 ==> r >= 0.0
    ensures index > 0.0 && target > outdoor ==> r > 0.0
  {
    var kg := index * Max(0.0, target - outdoor);
    assert index >= 0.0 ==> kg >= 0.0 by {
      if index >= 0.0 {
        NonNegativeProduct(index, Max(0.0, target - outdoor));
      }
    }
    assert index > 0.0 && target > outdoor ==> kg > 0.0 by {
      if index > 0.0 && target > outdoor {
        PositiveProduct(index, target - outdoor);
      }
    }
    kg
  }

  /** The static model's kilograms, or the exception that ends the computation. */
  function StaticKg(cfg: StaticConfig, inp: StaticInputs): (r: Result<real, Fault>)
    ensures cfg.fixed ==> r == StaticDhwKg(inp)
    ensures !cfg.fixed ==> r == StaticBuildingKg(cfg, inp)
  {
    if cfg.fixed then StaticDhwKg(inp) else StaticBuildingKg(cfg, inp)
  }

  /** Kilograms as the sensor's unit: the kilograms themselves, or their cost at `price` per kg. */
  function InUnit(returnKg: bool, kg: real, price: real): real {
    if returnKg then kg else kg * price
  }

  /**
   * How the static sensor settles what it shows from the price per kg and
   * the model's kilograms: a positive result is shown and remembered; a
   * result that is not positive, or an exception, shows the remembered
   * value instead once there is one.
   */
  function Settle(returnKg: bool, price: Result<real, Fault>, kg: Result<real, Fault>, lastValid: real): (r: Shown)
    ensures price.Failure? || kg.Failure? ==> r == Shown(lastValid, lastValid)
    ensures price.Success? && kg.Success? ==>
      var f := InUnit(returnKg, kg.value, price.value);
      (f > 0.0 ==> r == Shown(f, f))
      && (f <= 0.0 && lastValid > 0.0 ==> r == Shown(lastValid, lastValid))
      && (f <= 0.0 && lastValid <= 0.0 ==> r == Shown(f, lastValid))
  {
    match price
    case Failure(_) => Shown(lastValid, lastValid)
    case Success(price) =>
      match kg
      case Failure(_) => Shown(lastValid, lastValid)
      case Success(kg) =>
        var final := InUnit(returnKg, kg, price);
        if final > 0.0 then Shown(final, final)
        else if lastValid > 0.0 then Shown(lastValid, lastValid)
        else Shown(final, lastValid)
  }

  /**
   * What the static sensor shows: the model's kilograms (or their cost)
   * settled against the value it remembers. Once a positive value was seen
   * it never shows zero or less; what it remembers is always the last
   * positive value shown.
   */
  function Static(cfg: StaticConfig, inp: StaticInputs, lastValid: real): (r: Shown)
    ensures r == Settle(cfg.returnKg, PricePerKg(inp.pelletPrice), StaticKg(cfg, inp), lastValid)
    ensures lastValid > 0.0 ==> r.value > 0.0
    ensures r.value > 0.0 ==> r.lastValid == r.value
    ensures r.lastValid == lastValid || r.lastValid > 0.0
    ensures r.value != lastValid ==> PricePerKg(inp.pelletPrice).Success? && StaticKg(cfg, inp).Success?
  {
    Settle(cfg.returnKg, PricePerKg(inp.pelletPrice), StaticKg(cfg, inp), lastValid)
  }

  /**
   * The readings of a static building sensor that uses its learned index:
   * the index, the weather section, the outdoor temperature and the target
   * all read as the given numbers.
   */
  predicate ReadsLearnedDemand(cfg: StaticConfig, inp: StaticInputs, index: real, wd: Json, target: real, outdoor: real) {
    && !cfg.fixed && !cfg.forceSlider
    && LearnedIndexUsable(inp.efficiency) && FloatOfString(inp.efficiency.value.state) == Success(index)
    && WeatherData(inp.data) == Success(wd) && WeatherReading(wd, "1") == Success(outdoor)
    && StateOrDefault(inp.targetTemp, 22.0) == Success(target)
  }

  /**
   * A building sensor in kilograms with a learned index that parses to a
   * positive number shows index × (target − outdoor) whenever it is colder
   * outside than the target, and remembers that value.
   */
  lemma StaticBuildingShowsDemand(cfg: StaticConfig, inp: StaticInputs, lastValid: real,
                                  index: real, wd: Json, target: real, outdoor: real)
    requires ReadsLearnedDemand(cfg, inp, index, wd, target, outdoor)
    requires cfg.returnKg && PricePerKg(inp.pelletPrice).Success?
    requires index > 0.0 && target > outdoor
    ensures Static(cfg, inp, lastValid) == Shown(StaticDemand(index, target, outdoor), StaticDemand(index, target, outdoor))
    ensures Static(cfg, inp, lastValid).value == index * (target - outdoor)
  {
    StaticBuildingKgIsDemand(cfg, inp, index, wd, target, outdoor);
    StaticWeightShowsKg(cfg, inp, lastValid, StaticDemand(index, target, outdoor));
  }

  /** The static building model's kilograms from its readings. */
  lemma StaticBuildingKgIsDemand(cfg: StaticConfig, inp: StaticInputs, index: real, wd: Json, target: real, outdoor: real)
    requires ReadsLearnedDemand(cfg, inp, index, wd, target, outdoor)
    ensures StaticKg(cfg, inp) == Success(StaticDemand(index, target, outdoor))
  {
    assert BuildingIndex(cfg, inp) == Success(index);
    assert OutdoorTemperature(wd) == outdoor;
  }

  /**
   * The weight and cost siblings of a static sensor share one model (its
   * kilograms do not depend on the unit): while the model yields positive
   * kilograms, the weight sensor shows them and the cost sensor, at a
   * positive price, shows them times the price per kg, whatever either
   * remembers.
   */
  lemma StaticKgIgnoresUnit(cfg: StaticConfig, inp: StaticInputs, returnKg: bool)
    ensures StaticKg(cfg.(returnKg := returnKg), inp) == StaticKg(cfg, inp)
  {
    assert BuildingIndex(cfg.(returnKg := returnKg), inp) == BuildingIndex(cfg, inp);
  }

  lemma StaticWeightShowsKg(cfg: StaticConfig, inp: StaticInputs, lastValid: real, kg: real)
    requires cfg.returnKg && PricePerKg(inp.pelletPrice).Success?
    requires StaticKg(cfg, inp) == Success(kg) && kg > 0.0
    ensures Static(cfg, inp, lastValid) == Shown(kg, kg)
  {
  }

  lemma StaticCostShowsPricedKg(cfg: StaticConfig, inp: StaticInputs, lastValid: real, kg: real, price: real)
    requires !cfg.returnKg && PricePerKg(inp.pelletPrice) == Success(price) && price > 0.0
    requires StaticKg(cfg, inp) == Success(kg) && kg > 0.0
    ensures Static(cfg, inp, lastValid) == Shown(kg * price, kg * price)
  {
    SettlesPositiveCost(kg, price, lastValid);
  }

  /** A positive cost settles as shown and remembered. */
  lemma SettlesPositiveCost(kg: real, price: real, lastValid: real)
    requires kg > 0.0 && price > 0.0
    ensures Settle(false, Success(price), Success(kg), lastValid) == Shown(kg * price, kg * price)
  {
    PositiveProduct(kg, price);
  }

  /** Once the static sensor has shown a positive value it never shows zero or less again. */
  lemma {:induction false} StaticStaysPositive(cfg: StaticConfig, inputs: seq<StaticInputs>, lastValid: real)
    requires lastValid > 0.0
    ensures StaticRun(cfg, inputs, lastValid) > 0.0
    decreases |inputs|
  {
    if |inputs| > 0 {
      var r := Static(cfg, inputs[0], lastValid);
      StaticStaysPositive(cfg, inputs[1..], r.lastValid);
    }
  }

  /** The remembered value after showing the sensor once per input. */
  function StaticRun(cfg: StaticConfig, inputs: seq<StaticInputs>, lastValid: real): real
    decreases |inputs|
  {
    if |inputs| == 0 then lastValid
    else StaticRun(cfg, inputs[1..], Static(cfg, inputs[0], lastValid).lastValid)
  }
}
