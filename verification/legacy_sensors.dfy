/**
 * The older integration's own versions of the efficiency index, the
 * unified forecast and the total-forecast aggregator. The range, the DHW
 * total and the divided consumption of that integration live next to their
 * current counterparts (`Range.LegacyRangeDays`, `Accumulators.DhwTick`,
 * `Accumulators.LegacyDividedTick`).
 */
module LegacySensors {
  import opened Wrappers
  import opened Reals
  import opened Text
  import opened Json
  import opened Entity
  import opened Const
  import Efficiency
  import Forecast


  // ---------------------------------------------------------------------
  // The efficiency index

  /** The older efficiency sensor's memory between ticks. */
  datatype LegacyState = LegacyState(
    window: Option<Sample>,     // counter value and time at the start of the sampling window
    index: real,                // the learned efficiency index
    officeStart: Option<real>,  // when the office started heating
    rate: real,                 // burn rate of the last closed window, kg/h
    houseShare: real,           // diagnostic: kg/h attributed to the house
    officeShare: real)          // diagnostic: kg/h attributed to the office

  /** The state of a freshly created sensor. */
  const LegacyInitial: LegacyState := LegacyState(None, 0.8, None, 0.0, 0.0, 0.0)

  /** The host states and the payload one tick reads. */
  datatype LegacySnapshot = LegacySnapshot(
    data: Json,
    consumption: Option<EntityState>,
    boilerStatus: Option<EntityState>,
    targetTemp: Option<EntityState>,
    windFactor: Option<EntityState>,
    officeSwitch: Option<EntityState>,
    officePump: Option<EntityState>,
    houseIndex: Option<EntityState>)

  datatype LegacyOutcome = LegacyOutcome(state: LegacyState, exit: Efficiency.Exit)

  /** Counter increases up to this many kg count as no burn. */
  const LegacyNoiseFloorKg: real := 0.01

  /** Minutes the office must heat before its share is learnt. */
  const OfficeDwellMinutes: real := 20.0

  /** The margin on the house's expected burn while the office heats. */
  const HouseMargin: real := 1.10

  /** The office heats: its switch and its pump are both on. */
  predicate OfficeHeating(snap: LegacySnapshot) {
    InState(snap.officeSwitch, "on") && InState(snap.officePump, "on")
  }

  /** The office has heated for the dwell time (an unset start counts as no time). */
  predicate Dwelt(start: Option<real>, now: real) {
    Efficiency.Stamp(start) && (now - start.value) / 60.0 >= OfficeDwellMinutes
  }

  /** The heating start: kept while the office heats, set when it starts, cleared when it stops. */
  function Track(start: Option<real>, heating: bool, now: real): (r: Option<real>)
    ensures !heating ==> r.None?
    ensures heating ==> r.Some? && (start.Some? ==> r == start)
  {
    if !heating then None
    else if start.None? then Some(now)
    else start
  }

  /** The house's expected burn at the current temperature difference, with the margin, in kg/h. */
  function HouseBaseline(houseIndex: real, effDelta: real): (r: real)
    ensures r * 24.0 == houseIndex * HouseMargin * effDelta
    ensures houseIndex >= 0.0 && effDelta >= 0.0 ==> r >= 0.0
  {
    assert houseIndex >= 0.0 && effDelta >= 0.0 ==> houseIndex * effDelta >= 0.0 by {
      if houseIndex >= 0.0 && effDelta >= 0.0 {
        NonNegativeProduct(houseIndex, effDelta);
      }
    }
    houseIndex * HouseMargin * effDelta / 24.0
  }

  /** Closes the window: the index update (if any) and a new window starting now. */
  function Close(s: LegacyState, kg: real, now: real, candidate: real, requested: bool): (r: LegacyOutcome)
    ensures r.exit == Efficiency.Sampled
    ensures r.state == s.(index := Efficiency.Blend(s.index, candidate, requested), window := Some(Sample(kg, now)))
  {
    LegacyOutcome(s.(index := Efficiency.Blend(s.index, candidate, requested), window := Some(Sample(kg, now))), Efficiency.Sampled)
  }

  /**
   * The split and the index update once a window closed. The house learns
   * rate × 24 / ΔT while the office does not heat. The office learns once it
   * has heated for the dwell time, from what is left of the rate after the
   * house's expected burn (never negative). The house index is read only
   * then, and a state that does not parse raises.
   */
  function Learn(zone: Efficiency.Zone, s: LegacyState, kg: real, now: real, heating: bool, effDelta: real,
                 houseIndex: Result<real, Fault>): (r: LegacyOutcome)
    ensures r.exit == Efficiency.Sampled || r.exit.Raised?
    ensures r.state.rate == s.rate && r.state.officeStart == s.officeStart
    ensures r.exit.Raised? ==> r.state.index == s.index && r.state.window == s.window
    ensures r.exit.Raised? ==>
      (r.exit.fault == ZeroDivisionError && effDelta == 0.0) || (houseIndex.Failure? && r.exit.fault == houseIndex.error)
    ensures r.exit == Efficiency.Sampled ==> r.state.window == Some(Sample(kg, now))
    ensures zone == Efficiency.House && heating ==>
      r.state.index == s.index && r.state.houseShare == s.rate && r.state.officeShare == s.officeShare
    ensures zone == Efficiency.House && !heating && effDelta != 0.0 ==>
      r.exit == Efficiency.Sampled && r.state.houseShare == s.rate && r.state.officeShare == 0.0 &&
      r.state.index == Efficiency.Blend(s.index, s.rate * 24.0 / effDelta, true)
    ensures zone == Efficiency.Office && !(heating && Dwelt(s.officeStart, now)) ==>
      r.exit == Efficiency.Sampled && r.state.index == s.index && r.state.houseShare == s.houseShare
    ensures zone == Efficiency.Office && heating && !Dwelt(s.officeStart, now) ==> r.state.officeShare == 0.0
    ensures zone == Efficiency.Office && heating && Dwelt(s.officeStart, now) && houseIndex.Failure? ==>
      r == LegacyOutcome(s, Efficiency.Raised(houseIndex.error))
    ensures zone == Efficiency.Office && heating && Dwelt(s.officeStart, now) && houseIndex.Success? ==>
      r.state.houseShare == HouseBaseline(houseIndex.value, effDelta) &&
      r.state.officeShare == Max(0.0, s.rate - r.state.houseShare) &&
      (r.exit.Raised? <==> effDelta == 0.0) &&
      (effDelta != 0.0 ==> r.state.index == Efficiency.Blend(s.index, r.state.officeShare * 24.0 / effDelta, true))
    ensures zone == Efficiency.Office && heating && Dwelt(s.officeStart, now) && houseIndex.Success? ==>
      r.state.officeShare >= 0.0 &&
      (s.rate >= r.state.houseShare ==> r.state.houseShare + r.state.officeShare == s.rate) &&
      (s.rate < r.state.houseShare ==> r.state.officeShare == 0.0)
    ensures zone == Efficiency.Unassigned ==> r == Close(s, kg, now, s.index, false)
    ensures 0.1 < s.index < 15.0 ==> 0.1 < r.state.index < 15.0
  {
    match zone
    case House =>
      if !heating then
        if effDelta == 0.0 then LegacyOutcome(s, Efficiency.Raised(ZeroDivisionError))
        else Close(s.(houseShare := s.rate, officeShare := 0.0), kg, now, s.rate * 24.0 / effDelta, true)
      else Close(s.(houseShare := s.rate), kg, now, s.index, false)
    case Office =>
      if heating && Dwelt(s.officeStart, now) then
        match houseIndex
        case Failure(e) => LegacyOutcome(s, Efficiency.Raised(e))
        case Success(idx) =>
          var baseline := HouseBaseline(idx, effDelta);
          var office := Max(0.0, s.rate - baseline);
          var s1 := s.(houseShare := baseline, officeShare := office);
          if effDelta == 0.0 then LegacyOutcome(s1, Efficiency.Raised(ZeroDivisionError))
          else Close(s1, kg, now, office * 24.0 / effDelta, true)
      else if heating then Close(s.(officeShare := 0.0), kg, now, s.index, false)
      else Close(s, kg, now, s.index, false)
    case Unassigned =>
      Close(s, kg, now, s.index, false)
  }

  /**
   * The temperature difference the zone works against: target minus
   * outdoor, at least 1 K, scaled by the wind multiplier when wind is
   * enabled.
   */
  function LegacyEffectiveDelta(useWind: bool, windFactor: Option<EntityState>, wd: Json, target: real): (r: real)
    ensures !useWind ==> r == Max(1.0, target - OutdoorTemperature(wd))
    ensures useWind && WeatherReading(wd, "2").Failure? ==> r == Max(1.0, target - OutdoorTemperature(wd))
    ensures useWind ==> r == Max(1.0, target - OutdoorTemperature(wd)) * Forecast.WindMultiplier(wd, windFactor)
  {
    var deltaT := Max(1.0, target - OutdoorTemperature(wd));
    if useWind then deltaT * Forecast.WindMultiplier(wd, windFactor) else deltaT
  }

  /**
   * One coordinator tick of the older efficiency sensor. Whatever the tick
   * assigned before an exception is kept.
   */
  function LegacyTick(cfg: Efficiency.Config, s: LegacyState, snap: LegacySnapshot, now: real): (r: LegacyOutcome)
    ensures r.exit == Efficiency.NoReading <==> Efficiency.CounterReading(cfg.attrName, snap.consumption).None?
    ensures r.exit == Efficiency.NoReading || r.exit == Efficiency.Waiting ==> r.state == s
    ensures r.exit == Efficiency.Rebaselined <==>
      Efficiency.CounterReading(cfg.attrName, snap.consumption).Some? &&
      (s.window.None? || Efficiency.CounterReading(cfg.attrName, snap.consumption).value < s.window.value.value)
    ensures r.exit == Efficiency.Waiting <==>
      Efficiency.CounterReading(cfg.attrName, snap.consumption).Some? && s.window.Some? &&
      Efficiency.CounterReading(cfg.attrName, snap.consumption).value >= s.window.value.value &&
      now - s.window.value.time < Efficiency.MinWindowSeconds
    ensures r.exit != Efficiency.NoReading && r.exit != Efficiency.Rebaselined && r.exit != Efficiency.Waiting ==>
      Efficiency.CounterReading(cfg.attrName, snap.consumption).Some? && s.window.Some? &&
      now - s.window.value.time >= Efficiency.MinWindowSeconds &&
      r.state.rate == Efficiency.Rate(Efficiency.CounterReading(cfg.attrName, snap.consumption).value - s.window.value.value,
                                      now - s.window.value.time, LegacyNoiseFloorKg)
    ensures r.exit == Efficiency.Rebaselined ==>
      r.state == s.(window := r.state.window) && r.state.window.Some? && r.state.window.value.time == now
    ensures r.exit == Efficiency.DhwFrozen <==>
      r.exit != Efficiency.NoReading && r.exit != Efficiency.Rebaselined && r.exit != Efficiency.Waiting &&
      Efficiency.HeatingWater(snap.boilerStatus)
    ensures r.exit == Efficiency.DhwFrozen ==> r.state.index == s.index && r.state.window.Some? && r.state.window.value.time == now
    ensures r.state.index != s.index ==> r.exit == Efficiency.Sampled
    ensures cfg.zone == Efficiency.House && OfficeHeating(snap) ==> r.state.index == s.index
    ensures cfg.zone == Efficiency.Office && !OfficeHeating(snap) ==> r.state.index == s.index
    ensures r.exit == Efficiency.Sampled && !OfficeHeating(snap) ==> r.state.officeStart.None?
    ensures 0.1 < s.index < 15.0 ==> 0.1 < r.state.index < 15.0
  {
    match Efficiency.CounterReading(cfg.attrName, snap.consumption)
    case None => LegacyOutcome(s, Efficiency.NoReading)
    case Some(kg) =>
      if s.window.None? || kg < s.window.value.value then
        LegacyOutcome(s.(window := Some(Sample(kg, now))), Efficiency.Rebaselined)
      else
        var seconds := now - s.window.value.time;
        if seconds < Efficiency.MinWindowSeconds then LegacyOutcome(s, Efficiency.Waiting)
        else
          var s1 := s.(rate := Efficiency.Rate(kg - s.window.value.value, seconds, LegacyNoiseFloorKg));
          if Efficiency.HeatingWater(snap.boilerStatus) then
            LegacyOutcome(s1.(window := Some(Sample(kg, now))), Efficiency.DhwFrozen)
          else match StateOrDefault(snap.targetTemp, 22.0)
            case Failure(e) => LegacyOutcome(s1, Efficiency.Raised(e))
            case Success(target) =>
              match WeatherData(snap.data)
              case Failure(e) => LegacyOutcome(s1, Efficiency.Raised(e))
              case Success(wd) =>
                var effDelta := LegacyEffectiveDelta(cfg.useWind, snap.windFactor, wd, target);
                var heating := OfficeHeating(snap);
                var s2 := s1.(officeStart := Track(s1.officeStart, heating, now));
                Learn(cfg.zone, s2, kg, now, heating, effDelta, StateOrDefault(snap.houseIndex, 0.8))
  }

  /**
   * While the office does not heat, a house sensor whose window closes
   * outside a DHW run learns the window's burn rate × 24 / ΔT: the index
   * moves a tenth of the way towards it when it lies in (0.1, 15).
   */
  lemma LegacyHouseTickLearnsBurnRate(cfg: Efficiency.Config, s: LegacyState, snap: LegacySnapshot, now: real,
                                      w: Sample, kg: real, target: real, wd: Json)
    requires cfg.zone == Efficiency.House && !OfficeHeating(snap)
    requires s.window == Some(w) && Efficiency.CounterReading(cfg.attrName, snap.consumption) == Some(kg)
    requires kg >= w.value && now - w.time >= Efficiency.MinWindowSeconds
    requires !Efficiency.HeatingWater(snap.boilerStatus)
    requires StateOrDefault(snap.targetTemp, 22.0) == Success(target) && WeatherData(snap.data) == Success(wd)
    requires LegacyEffectiveDelta(cfg.useWind, snap.windFactor, wd, target) != 0.0
    ensures LegacyTick(cfg, s, snap, now).exit == Efficiency.Sampled
    ensures LegacyTick(cfg, s, snap, now).state.index ==
      Efficiency.Blend(s.index, Efficiency.Rate(kg - w.value, now - w.time, LegacyNoiseFloorKg) * 24.0
                                / LegacyEffectiveDelta(cfg.useWind, snap.windFactor, wd, target), true)
  {
  }

  /**
   * Once the office has heated for the dwell time, an office tick whose
   * window closes outside a DHW run takes what is left of the window's burn
   * rate after the house's expected burn (never negative) and moves the
   * index a tenth of the way towards that share × 24 / ΔT (when the
   * candidate is in the accepted band).
   */
  lemma LegacyOfficeTickLearnsShare(cfg: Efficiency.Config, s: LegacyState, snap: LegacySnapshot, now: real,
                                    w: Sample, kg: real, target: real, wd: Json, houseIndex: real)
    requires cfg.zone == Efficiency.Office && OfficeHeating(snap) && Dwelt(Track(s.officeStart, true, now), now)
    requires s.window == Some(w) && Efficiency.CounterReading(cfg.attrName, snap.consumption) == Some(kg)
    requires kg >= w.value && now - w.time >= Efficiency.MinWindowSeconds
    requires !Efficiency.HeatingWater(snap.boilerStatus)
    requires StateOrDefault(snap.targetTemp, 22.0) == Success(target) && WeatherData(snap.data) == Success(wd)
    requires StateOrDefault(snap.houseIndex, 0.8) == Success(houseIndex)
    requires LegacyEffectiveDelta(cfg.useWind, snap.windFactor, wd, target) != 0.0
    ensures LegacyTick(cfg, s, snap, now).exit == Efficiency.Sampled
    ensures LegacyTick(cfg, s, snap, now).state.officeShare ==
      Max(0.0, Efficiency.Rate(kg - w.value, now - w.time, LegacyNoiseFloorKg)
               - HouseBaseline(houseIndex, LegacyEffectiveDelta(cfg.useWind, snap.windFactor, wd, target)))
    ensures LegacyTick(cfg, s, snap, now).state.index ==
      Efficiency.Blend(s.index, LegacyTick(cfg, s, snap, now).state.officeShare * 24.0
                                / LegacyEffectiveDelta(cfg.useWind, snap.windFactor, wd, target), true)
  {
  }

  /** The ticks of a run, one snapshot and one clock reading per tick. */
  function LegacyRun(cfg: Efficiency.Config, s: LegacyState, ticks: seq<(LegacySnapshot, real)>): LegacyState
    decreases |ticks|
  {
    if |ticks| == 0 then s
    else LegacyRun(cfg, LegacyTick(cfg, s, ticks[0].0, ticks[0].1).state, ticks[1..])
  }

  /**
   * The office heats only when both its switch and its pump exist and read
   * "on"; a missing switch stops it, unlike in the current integration.
   * While it heats the house index stays; while it does not, the office
   * index stays.
   */
  lemma OfficeHeatingNeedsSwitchAndPump(cfg: Efficiency.Config, s: LegacyState, snap: LegacySnapshot, now: real)
    ensures snap.officeSwitch.None? || snap.officePump.None? ==> !OfficeHeating(snap)
    ensures OfficeHeating(snap) <==> InState(snap.officeSwitch, "on") && InState(snap.officePump, "on")
    ensures cfg.zone == Efficiency.House && OfficeHeating(snap) ==> LegacyTick(cfg, s, snap, now).state.index == s.index
    ensures cfg.zone == Efficiency.Office && !OfficeHeating(snap) ==> LegacyTick(cfg, s, snap, now).state.index == s.index
  {
  }

  /** An index inside (0.1, 15) stays inside over any run of ticks. */
  lemma {:induction false} LegacyRunKeepsIndexInBand(cfg: Efficiency.Config, s: LegacyState, ticks: seq<(LegacySnapshot, real)>)
    requires 0.1 < s.index < 15.0
    ensures 0.1 < LegacyRun(cfg, s, ticks).index < 15.0
    decreases |ticks|
  {
    if |ticks| > 0 {
      LegacyRunKeepsIndexInBand(cfg, LegacyTick(cfg, s, ticks[0].0, ticks[0].1).state, ticks[1..]);
    }
  }

  /** While the office heats at every tick, the house index does not move. */
  lemma {:induction false} HouseIndexFrozenWhileOfficeHeats(cfg: Efficiency.Config, s: LegacyState,
                                                           ticks: seq<(LegacySnapshot, real)>)
    requires cfg.zone == Efficiency.House
    requires forall i :: 0 <= i < |ticks| ==> OfficeHeating(ticks[i].0)
    ensures LegacyRun(cfg, s, ticks).index == s.index
    decreases |ticks|
  {
    if |ticks| > 0 {
      var t := LegacyTick(cfg, s, ticks[0].0, ticks[0].1);
      assert OfficeHeating(ticks[0].0);
      HouseIndexFrozenWhileOfficeHeats(cfg, t.state, ticks[1..]);
    }
  }

  // ---------------------------------------------------------------------
  // The unified forecast

  /** The host states the older unified forecast reads, and the payload. */
  datatype LegacyForecastInputs = LegacyForecastInputs(
    data: Json,
    houseTarget: Option<EntityState>,
    houseIndex: Option<EntityState>,
    houseConsumed: Option<EntityState>,
    officeSwitch: Option<EntityState>,
    officeTarget: Option<EntityState>,
    officeIndex: Option<EntityState>,
    officeConsumed: Option<EntityState>,
    dhwTemperature: Option<EntityState>,
    tankVolume: Option<EntityState>,
    pelletPrice: Option<EntityState>)

  /**
   * `_get_attribute_safely`: an attribute of an entity as a number; the
   * default for a missing entity, an entity without attributes, a missing
   * or placeholder attribute, or a text that does not parse. An attribute
   * that is a list or a dictionary raises `TypeError`.
   */
  function AttributeSafely(e: Option<EntityState>, name: string, default: real): (r: Result<real, Fault>)
    ensures e.None? || |e.value.attributes| == 0 ==> r == Success(default)
    ensures r.Failure? ==>
      (r.error == TypeError && e.Some? &&
       (Get(e.value.attributes, name).JList? || Get(e.value.attributes, name).JObj?))
    ensures e.Some? && Get(e.value.attributes, name) in {JNull, JStr("unknown"), JStr("unavailable")} ==>
      r == Success(default)
    ensures e.Some? && Get(e.value.attributes, name).JInt? ==> r == Success(Get(e.value.attributes, name).i as real)
    ensures e.Some? && Get(e.value.attributes, name).JFloat? ==> r == Success(Get(e.value.attributes, name).v)
  {
    if e.None? || |e.value.attributes| == 0 then Success(default)
    else
      var v := Get(e.value.attributes, name);
      if v == JNull || v == JStr("unknown") || v == JStr("unavailable") then Success(default)
      else match FloatOf(v)
        case Success(x) => Success(x)
        case Failure(f) => if f == ValueError then Success(default) else Failure(f)
  }

  /**
   * The older DHW reheat: the tank is heated 5 K past the requested
   * temperature, but only once it has cooled below the requested
   * temperature.
   */
  function LegacyReheat(volume: real, wanted: real, current: real): (r: real)
    ensures current >= wanted ==> r == 0.0
    ensures current < wanted ==> r == ReheatKg(volume, wanted + 5.0 - current)
    ensures volume >= 0.0 ==> r >= 0.0
  {
    var gap := Max(0.0, wanted + 5.0 - current);
    if gap > 5.0 then ReheatKg(volume, gap) else 0.0
  }

  /** The tank's temperature as the DHW sensor's `dhw_low_temperature` attribute (40 °C by default). */
  function LowTemperature(inp: LegacyForecastInputs): Result<real, Fault> {
    AttributeSafely(inp.dhwTemperature, "dhw_low_temperature", 40.0)
  }

  /** The requested tank temperature as the DHW sensor's `dhw_temperature_requested` attribute (50 °C by default). */
  function RequestedTemperature(inp: LegacyForecastInputs): Result<real, Fault> {
    AttributeSafely(inp.dhwTemperature, "dhw_temperature_requested", 50.0)
  }

  /**
   * Today's projection of the older unified forecast, or the exception that
   * makes it show 0. The house is projected like the current one but
   * without wind; the office projection is only what it burnt so far,
   * whether or not it heats, because the remaining demand is computed into a
   * misspelt variable; the DHW projection is the reheat alone.
   */
  function LegacyProject(inp: LegacyForecastInputs, hour: nat, minute: nat): (r: Result<Forecast.Projection, Fault>)
    ensures !inp.data.JObj? ==> r == Failure(AttributeError)
    ensures inp.data.JObj? && !GetOr(inp.data.fields, "weatherdata", JObj([])).JObj? ==> r == Failure(AttributeError)
    ensures r.Success? <==> inp.data.JObj? && GetOr(inp.data.fields, "weatherdata", JObj([])).JObj?
                            && LowTemperature(inp).Success? && RequestedTemperature(inp).Success?
    ensures r.Success? ==>
      r.value.house == Forecast.BuildingForecast(ValueSafely(inp.houseConsumed, 0.0), ValueSafely(inp.houseIndex, 0.8),
        ValueSafely(inp.houseTarget, 22.0), OutdoorTemperature(GetOr(inp.data.fields, "weatherdata", JObj([]))), 1.0,
        Forecast.HoursLeft(hour, minute), true)
    ensures r.Success? ==>
      LowTemperature(inp).Success? && RequestedTemperature(inp).Success? &&
      r.value.dhw == LegacyReheat(ValueSafely(inp.tankVolume, 200.0), RequestedTemperature(inp).value, LowTemperature(inp).value)
    ensures r.Failure? ==> r.error == AttributeError || r.error == TypeError
    ensures r.Success? ==> r.value.office == ValueSafely(inp.officeConsumed, 0.0)
    ensures r.Success? && ValueSafely(inp.houseIndex, 0.8) >= 0.0 ==> r.value.house >= ValueSafely(inp.houseConsumed, 0.0)
    ensures r.Success? && ValueSafely(inp.tankVolume, 200.0) >= 0.0 ==> r.value.dhw >= 0.0
    ensures inp.dhwTemperature.None? && inp.data.JObj? && GetOr(inp.data.fields, "weatherdata", JObj([])).JObj? ==>
      r.Success? && r.value.dhw == ReheatKg(ValueSafely(inp.tankVolume, 200.0), 15.0)
  {
    if !inp.data.JObj? then Failure(AttributeError)
    else
      var wd := GetOr(inp.data.fields, "weatherdata", JObj([]));
      if !wd.JObj? then Failure(AttributeError)
      else
        var outdoor := OutdoorTemperature(wd);
        var hoursLeft := Forecast.HoursLeft(hour, minute);
        var house := Forecast.BuildingForecast(ValueSafely(inp.houseConsumed, 0.0), ValueSafely(inp.houseIndex, 0.8),
          ValueSafely(inp.houseTarget, 22.0), outdoor, 1.0, hoursLeft, true);
        var office := ValueSafely(inp.officeConsumed, 0.0);
        var current :- LowTemperature(inp);
        var wanted :- RequestedTemperature(inp);
        var dhw := LegacyReheat(ValueSafely(inp.tankVolume, 200.0), wanted, current);
        Success(Forecast.Projection(house, office, dhw))
  }

  /**
   * What an older unified forecast sensor shows: the chosen projection in
   * kg, or priced with the pellet price per tonne (1250 when unknown); 0
   * when the projection raised.
   */
  function LegacyUnified(target: Forecast.Target, unit: Forecast.Unit, inp: LegacyForecastInputs,
                         hour: nat, minute: nat): (r: real)
    ensures !inp.data.JObj? ==> r == 0.0
    ensures target == Forecast.Office && unit == Forecast.Weight && LegacyProject(inp, hour, minute).Success? ==>
      r == ValueSafely(inp.officeConsumed, 0.0)
    ensures LegacyProject(inp, hour, minute).Failure? ==> r == 0.0
    ensures LegacyProject(inp, hour, minute).Success? && unit == Forecast.Weight ==>
      r == Forecast.Pick(LegacyProject(inp, hour, minute).value, target)
    ensures LegacyProject(inp, hour, minute).Success? && unit == Forecast.Cost ==>
      r == Forecast.Pick(LegacyProject(inp, hour, minute).value, target) * (ValueSafely(inp.pelletPrice, 1250.0) / 1000.0)
  {
    Forecast.Show(LegacyProject(inp, hour, minute), target, unit, ValueSafely(inp.pelletPrice, 1250.0))
  }

  /**
   * When the older projection succeeds, the house weight sensor shows what
   * the house burnt plus the index model's demand until midnight without
   * wind, and the DHW weight sensor shows the reheat alone.
   */
  lemma LegacyUnifiedWeightShowsProjection(inp: LegacyForecastInputs, hour: nat, minute: nat)
    requires LegacyProject(inp, hour, minute).Success?
    ensures LegacyUnified(Forecast.House, Forecast.Weight, inp, hour, minute) ==
      Forecast.BuildingForecast(ValueSafely(inp.houseConsumed, 0.0), ValueSafely(inp.houseIndex, 0.8),
        ValueSafely(inp.houseTarget, 22.0), OutdoorTemperature(GetOr(inp.data.fields, "weatherdata", JObj([]))), 1.0,
        Forecast.HoursLeft(hour, minute), true)
    ensures LegacyUnified(Forecast.Dhw, Forecast.Weight, inp, hour, minute) ==
      LegacyReheat(ValueSafely(inp.tankVolume, 200.0), RequestedTemperature(inp).value, LowTemperature(inp).value)
  {
  }

  /** The office projection does not depend on the office switch, target or index. */
  lemma LegacyOfficeIgnoresItsHeating(inp: LegacyForecastInputs, hour: nat, minute: nat,
                                      switch: Option<EntityState>, target: Option<EntityState>, index: Option<EntityState>)
    ensures LegacyProject(inp.(officeSwitch := switch, officeTarget := target, officeIndex := index), hour, minute) ==
      LegacyProject(inp, hour, minute)
  {
  }

  /**
   * The older reheat is the current one aimed 5 K above the requested
   * temperature with a 5 K hysteresis band.
   */
  lemma LegacyReheatIsShiftedReheat(volume: real, wanted: real, current: real)
    ensures LegacyReheat(volume, wanted, current) == Forecast.DhwReheat(volume, wanted + 5.0, current, 5.0)
  {
  }

  // ---------------------------------------------------------------------
  // The total-forecast aggregator

  /** A component sensor's id and its state (absent when the host does not know it). */
  type Component = (string, Option<EntityState>)

  /** A component's value; `None` when it is missing, a placeholder or does not parse. */
  function ComponentValue(e: Option<EntityState>): (r: Option<real>)
    ensures e.None? ==> r.None?
    ensures e.Some? && !Unusable(e.value.state) ==> r == ParseDecimal(e.value.state)
  {
    if e.None? || Unusable(e.value.state) then None else ParseDecimal(e.value.state)
  }

  /** A hot-water sensor, recognised by its id. */
  predicate IsHotWater(sid: string) {
    Contains(sid, "dhw") || Contains(sid, "hot_water")
  }

  /** A forecast sensor, recognised by its id. */
  predicate IsForecast(sid: string) {
    Contains(sid, "forecast")
  }

  /** The value a component adds to the linear part of the sum: 0 for hot water and for skipped components. */
  function Linear(c: Component): real {
    if !IsHotWater(c.0) && ComponentValue(c.1).Some? then ComponentValue(c.1).value else 0.0
  }

  /** The sum of the components that are not hot water. */
  function OthersSum(cs: seq<Component>): real
    decreases |cs|
  {
    if |cs| == 0 then 0.0 else OthersSum(cs[..|cs| - 1]) + Linear(cs[|cs| - 1])
  }

  /** A hot-water component of the given kind (forecast or actual) with a value. */
  predicate HotWaterOf(c: Component, forecast: bool) {
    IsHotWater(c.0) && IsForecast(c.0) == forecast && ComponentValue(c.1).Some?
  }

  /** The value of the last hot-water component of the given kind; 0 when there is none. */
  function LastHotWater(cs: seq<Component>, forecast: bool): (r: real)
    ensures (forall i :: 0 <= i < |cs| ==> !HotWaterOf(cs[i], forecast)) ==> r == 0.0
    decreases |cs|
  {
    if |cs| == 0 then 0.0
    else if HotWaterOf(cs[|cs| - 1], forecast) then ComponentValue(cs[|cs| - 1].1).value
    else
      assert forall i :: 0 <= i < |cs| - 1 ==> cs[..|cs| - 1][i] == cs[i];
      LastHotWater(cs[..|cs| - 1], forecast)
  }

  /**
   * `StokerTotalForecastSensor.native_value`: the non-hot-water components
   * add up; of the hot-water ones, the larger of the last forecast and the
   * last actual value is added.
   */
  method TotalForecast(components: seq<Component>) returns (total: real)
    ensures total == OthersSum(components) + Max(LastHotWater(components, true), LastHotWater(components, false))
    ensures total >= OthersSum(components) + LastHotWater(components, true)
    ensures total >= OthersSum(components) + LastHotWater(components, false)
  {
    var actual := 0.0;
    var forecast := 0.0;
    var others := 0.0;
    var i := 0;
    while i < |components|
      invariant 0 <= i <= |components|
      invariant others == OthersSum(components[..i])
      invariant forecast == LastHotWater(components[..i], true)
      invariant actual == LastHotWater(components[..i], false)
    {
      var sid := components[i].0;
      var value := ComponentValue(components[i].1);
      assert components[..i + 1][..i] == components[..i];
      if value.Some? {
        if IsHotWater(sid) {
          if IsForecast(sid) {
            forecast := value.value;
          } else {
            actual := value.value;
          }
        } else {
          others := others + value.value;
        }
      }
      i := i + 1;
    }
    assert components[..|components|] == components;
    total := others + Max(forecast, actual);
  }

  /** The linear part of two lists of components is the sum of their linear parts. */
  lemma {:induction false} OthersSumAppend(a: seq<Component>, b: seq<Component>)
    ensures OthersSum(a + b) == OthersSum(a) + OthersSum(b)
    decreases |b|
  {
    if |b| == 0 {
      assert a + b == a;
    } else {
      var b' := b[..|b| - 1];
      assert (a + b)[..|a + b| - 1] == a + b';
      assert (a + b)[|a + b| - 1] == b[|b| - 1];
      OthersSumAppend(a, b');
    }
  }

  /**
   * The usual configuration, house and office forecasts followed by the
   * hot-water forecast and the hot water burnt so far, sums to house +
   * office + the larger hot-water figure.
   */
  lemma TypicalTotal(house: Component, office: Component, dhwForecast: Component, dhwActual: Component)
    requires !IsHotWater(house.0) && ComponentValue(house.1).Some?
    requires !IsHotWater(office.0) && ComponentValue(office.1).Some?
    requires HotWaterOf(dhwForecast, true) && HotWaterOf(dhwActual, false)
    ensures var cs := [house, office, dhwForecast, dhwActual];
      OthersSum(cs) + Max(LastHotWater(cs, true), LastHotWater(cs, false)) ==
      ComponentValue(house.1).value + ComponentValue(office.1).value +
      Max(ComponentValue(dhwForecast.1).value, ComponentValue(dhwActual.1).value)
  {
    var c1 := [house];
    var c2 := [house, office];
    var c3 := [house, office, dhwForecast];
    var cs := [house, office, dhwForecast, dhwActual];
    assert c1[..0] == [] && c2[..1] == c1 && c3[..2] == c2 && cs[..3] == c3;
    assert OthersSum(c1) == Linear(house);
    assert OthersSum(c2) == Linear(house) + Linear(office);
    assert Linear(dhwForecast) == 0.0 && Linear(dhwActual) == 0.0;
    assert OthersSum(cs) == OthersSum(c3) == OthersSum(c2);
    assert !HotWaterOf(dhwActual, true) && !HotWaterOf(dhwForecast, false);
    assert LastHotWater(cs, true) == LastHotWater(c3, true) == ComponentValue(dhwForecast.1).value;
    assert LastHotWater(cs, false) == ComponentValue(dhwActual.1).value;
  }
}
