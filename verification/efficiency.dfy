/**
 * The house/office efficiency index of the current integration: one
 * coordinator tick of `StokerEfficiencySensor`. The index is the pellet burn
 * (kg per 24 h) per kelvin of indoor/outdoor difference, learned from a
 * shared cumulative pellet counter sampled in windows of at least five
 * minutes and smoothed by an exponential moving average.
 *
 * A tick runs five stages: office activity tracking, the weather inputs and
 * the dwell threshold, the windowed sampler, the DHW freeze, and the
 * house/office split with the index update. Python exceptions raised in the
 * middle end the tick; whatever the tick assigned before the raise is kept,
 * as the sensor's catch-all handler keeps it.
 */
module Efficiency {
  import opened Wrappers
  import opened Reals
  import opened Text
  import opened Json
  import opened Entity

  /** The sensor's memory between ticks. */
  datatype EfficiencyState = EfficiencyState(
    window: Option<Sample>,     // counter value and time at the start of the sampling window
    index: real,                // the learned efficiency index
    officeStart: Option<real>,  // when the office started heating
    lastPumpOn: Option<real>,   // last tick at which the office pump was seen running
    rate: real,                 // burn rate of the last closed window, kg/h
    houseShare: real,           // diagnostic: kg/h attributed to the house
    officeShare: real,          // diagnostic: kg/h attributed to the office
    pumpOn: bool,               // diagnostic: office pump state at the last tick
    dwell: real)                // minutes the office must heat before its share is trusted

  /** The state of a freshly created sensor. */
  const Initial: EfficiencyState :=
    EfficiencyState(None, 0.8, None, None, 0.0, 0.0, 0.0, false, 20.0)

  /** Which building an instance learns the index of. */
  datatype Zone = House | Office | Unassigned

  /**
   * Configuration: the zone, the attribute of the consumption entity holding
   * the counter (empty: the entity's state), and whether wind is taken into
   * account.
   */
  datatype Config = Config(zone: Zone, attrName: string, useWind: bool)

  /** The host states and the payload one tick reads. */
  datatype Snapshot = Snapshot(
    data: Json,
    officeSwitch: Option<EntityState>,
    officePump: Option<EntityState>,
    targetTemp: Option<EntityState>,
    timeShift: Option<EntityState>,
    windFactor: Option<EntityState>,
    houseIndex: Option<EntityState>,
    consumption: Option<EntityState>,
    boilerStatus: Option<EntityState>)

  /** How a tick ended. */
  datatype Exit =
    | Raised(fault: Fault)  // an exception ended the tick
    | NoReading             // the consumption entity has no usable value
    | Rebaselined           // first reading or the counter went down
    | Waiting               // the window is shorter than five minutes
    | DhwFrozen             // the boiler heats water: window restarted, index kept
    | Sampled               // a window closed and was attributed

  datatype Outcome = Outcome(state: EfficiencyState, exit: Exit)

  const MinWindowSeconds: real := 300.0
  const NoiseFloorKg: real := 0.005
  const PumpGraceSeconds: real := 600.0
  const Alpha: real := 0.1

  /** A timestamp that Python treats as set: present and not zero. */
  predicate Stamp(t: Option<real>) {
    t.Some? && t.value != 0.0
  }


  /** The office switch counts as on unless it exists and is "off". */
  predicate SwitchOn(snap: Snapshot) {
    snap.officeSwitch.None? || snap.officeSwitch.value.state != "off"
  }

  /** The boiler is heating domestic hot water. */
  predicate HeatingWater(boiler: Option<EntityState>) {
    boiler.Some? && (boiler.value.state == "CWU" || boiler.value.state == "state_7")
  }

  // ---------------------------------------------------------------------
  // Stage 1: office activity tracking

  /**
   * Records when the office started heating. The start is set when switch
   * and pump run and it was unset, cleared when the switch is off, and
   * cleared when the pump has been off for more than the grace period.
   */
  function TrackOffice(s: EfficiencyState, switchOn: bool, pumpOn: bool, now: real): (r: EfficiencyState)
    ensures r == s.(officeStart := r.officeStart, lastPumpOn := r.lastPumpOn, pumpOn := pumpOn)
    ensures switchOn && pumpOn ==>
      r.lastPumpOn == Some(now) && r.officeStart == (if Stamp(s.officeStart) then s.officeStart else Some(now))
    ensures !switchOn ==> r.officeStart.None? && r.lastPumpOn == s.lastPumpOn
    ensures switchOn && !pumpOn ==> r.lastPumpOn == s.lastPumpOn
    ensures switchOn && !pumpOn && r.officeStart != s.officeStart ==>
      r.officeStart.None? && Stamp(s.lastPumpOn) && now - s.lastPumpOn.value > PumpGraceSeconds
    ensures (switchOn && !pumpOn && Stamp(s.officeStart) && Stamp(s.lastPumpOn) &&
             now - s.lastPumpOn.value > PumpGraceSeconds) ==> r.officeStart.None?
  {
    var s1 := s.(pumpOn := pumpOn);
    if switchOn && pumpOn then
      s1.(lastPumpOn := Some(now), officeStart := if Stamp(s.officeStart) then s.officeStart else Some(now))
    else if !switchOn then
      s1.(officeStart := None)
    else if Stamp(s.officeStart) && Stamp(s.lastPumpOn) && now - s.lastPumpOn.value > PumpGraceSeconds then
      s1.(officeStart := None)
    else s1
  }

  // ---------------------------------------------------------------------
  // Stage 2: weather inputs

  /**
   * Minutes the office must heat before its share is trusted: the configured
   * base plus 4 minutes for every 5 K the outdoor temperature is below 10 °C.
   */
  function Dwell(base: real, outdoor: real): (r: real)
    ensures r >= base
    ensures outdoor >= 10.0 ==> r == base
    ensures outdoor < 10.0 ==> r == base + (10.0 - outdoor) * 0.8
  {
    base + Max(0.0, (10.0 - outdoor) / 5.0) * 4.0
  }

  /**
   * The temperature difference the zone works against, at least 1 K. With
   * wind enabled the wind speed scales it by 5 % per m/s, but only when the
   * wind-factor entity does not exist: when it does, the sensor refers to an
   * undefined name, the `NameError` is swallowed and the difference is left
   * as it is.
   */
  function EffectiveDelta(useWind: bool, windFactor: Option<EntityState>, wd: Json, target: real, outdoor: real): (r: real)
    ensures !useWind || windFactor.Some? ==> r == Max(1.0, target - outdoor)
    ensures useWind && windFactor.None? && WeatherReading(wd, "2").Failure? ==> r == Max(1.0, target - outdoor)
    ensures useWind && windFactor.None? && WeatherReading(wd, "2").Success? ==>
      r == Max(1.0, target - outdoor) * (1.0 + WeatherReading(wd, "2").value * 0.05)
  {
    var deltaT := Max(1.0, target - outdoor);
    if !useWind then deltaT
    else match WeatherReading(wd, "2")
      case Failure(_) => deltaT
      case Success(windSpeed) =>
        if windFactor.Some? then deltaT
        else deltaT * (1.0 + windSpeed * 0.05)
  }

  // ---------------------------------------------------------------------
  // Stage 3: the windowed sampler

  /** Burn rate over a closed window; deltas at or below the noise floor count as no burn. */
  function Rate(deltaKg: real, seconds: real, noiseFloor: real): (r: real)
    requires seconds > 0.0
    ensures deltaKg <= noiseFloor ==> r == 0.0
    ensures deltaKg > noiseFloor ==> r * seconds == deltaKg * 3600.0
    ensures noiseFloor >= 0.0 ==> r >= 0.0
  {
    if deltaKg > noiseFloor then deltaKg / (seconds / 3600.0) else 0.0
  }

  /**
   * The counter value from the consumption entity: `None` when the entity is
   * missing or has a placeholder state, or when the value does not parse.
   */
  function CounterReading(attrName: string, e: Option<EntityState>): (r: Option<real>)
    ensures e.None? || Unusable(e.value.state) ==> r.None?
    ensures attrName == "" && e.Some? && !Unusable(e.value.state) ==> r == ParseDecimal(e.value.state)
  {
    if e.None? || Unusable(e.value.state) then None
    else if attrName != "" then FloatOf(GetOr(e.value.attributes, attrName, JInt(0))).ToOption()
    else FloatOfString(e.value.state).ToOption()
  }

  // ---------------------------------------------------------------------
  // Stage 5: the split and the index update

  /**
   * The exponential moving average step: a requested candidate strictly
   * between 0.1 and 15 moves the index a tenth of the way towards it; any
   * other candidate leaves the index as it is.
   */
  function Blend(index: real, candidate: real, requested: bool): (r: real)
    ensures !(requested && 0.1 < candidate < 15.0) ==> r == index
    ensures requested && 0.1 < candidate < 15.0 ==>
      r == 0.9 * index + 0.1 * candidate && Min(index, candidate) <= r <= Max(index, candidate)
    ensures 0.1 < index < 15.0 ==> 0.1 < r < 15.0
  {
    if requested && 0.1 < candidate < 15.0 then index * (1.0 - Alpha) + candidate * Alpha
    else index
  }

  /** Closes the window: index update (if any) and a new window starting now. */
  function Close(s: EfficiencyState, kg: real, now: real, candidate: real, requested: bool): (r: Outcome)
    ensures r.exit == Sampled
    ensures r.state == s.(index := Blend(s.index, candidate, requested), window := Some(Sample(kg, now)))
  {
    Outcome(s.(index := Blend(s.index, candidate, requested), window := Some(Sample(kg, now))), Sampled)
  }

  /** `rate * a / (a + b) + rate * b / (a + b) == rate`. */
  lemma ProportionalShares(rate: real, a: real, b: real)
    requires a + b != 0.0
    ensures rate * (a / (a + b)) + rate * (b / (a + b)) == rate
  {
    var t := a + b;
    QuotientsSumToOne(a, b, t);
    assert rate * (a / t) + rate * (b / t) == rate * (a / t + b / t);
  }

  /** The office's part of `rate`, in proportion to the two predicted demands. */
  function OfficeShareOf(rate: real, predHouse: real, predOffice: real): real
    requires predHouse + predOffice != 0.0
  {
    rate * (predOffice / (predHouse + predOffice))
  }

  /** Minutes the office has been heating; 0 when no start is recorded. */
  function Elapsed(officeStart: Option<real>, now: real): real {
    if Stamp(officeStart) then (now - officeStart.value) / 60.0 else 0.0
  }

  /**
   * The office's burn can be trusted: switch and pump run and it has been
   * heating for at least the dwell time.
   */
  predicate Reliable(switchOn: bool, pumpOn: bool, officeStart: Option<real>, dwell: real, now: real) {
    switchOn && pumpOn && Elapsed(officeStart, now) >= dwell
  }

  /**
   * The house's side of the split. While the office is not reliable the
   * whole rate is the house's and the house learns rate × 24 / ΔT; while it
   * is, the rate is split in proportion to the predicted demands and the
   * house learns nothing.
   */
  function HouseSplit(s: EfficiencyState, kg: real, now: real, reliable: bool,
                      effDelta: real, predHouse: real, predOffice: real): (r: Outcome)
    ensures r.exit == Sampled || r.exit == Raised(ZeroDivisionError)
    ensures r.state.rate == s.rate && r.state.officeStart == s.officeStart && r.state.dwell == s.dwell
    ensures r.exit.Raised? ==> r.state.index == s.index && r.state.window == s.window
    ensures r.exit == Sampled ==> r.state.window == Some(Sample(kg, now))
    ensures !reliable ==> r.state.houseShare == s.rate && r.state.officeShare == predOffice
    ensures !reliable ==>
      (effDelta == 0.0 <==> r.exit.Raised?) &&
      (effDelta != 0.0 ==> r.state.index == Blend(s.index, s.rate * 24.0 / effDelta, true))
    ensures reliable ==> r.state.index == s.index
    ensures reliable && predHouse + predOffice == 0.0 ==> r == Outcome(s, Raised(ZeroDivisionError))
    ensures reliable && predHouse + predOffice != 0.0 ==>
      r.exit == Sampled &&
      r.state.houseShare == s.rate * (predHouse / (predHouse + predOffice)) &&
      r.state.officeShare == s.rate * (predOffice / (predHouse + predOffice)) &&
      r.state.houseShare + r.state.officeShare == s.rate
  {
    var rate := s.rate;
    if !reliable then
      var s1 := s.(houseShare := rate, officeShare := predOffice);
      if effDelta == 0.0 then Outcome(s1, Raised(ZeroDivisionError))
      else Close(s1, kg, now, rate * 24.0 / effDelta, true)
    else
      var total := predHouse + predOffice;
      if total == 0.0 then Outcome(s, Raised(ZeroDivisionError))
      else
        ProportionalShares(rate, predHouse, predOffice);
        var s1 := s.(houseShare := rate * (predHouse / total), officeShare := rate * (predOffice / total));
        Close(s1, kg, now, s.index, false)
  }

  /**
   * The office's side of the split. While the office is reliable it takes
   * its proportional share of the rate, the house the rest, and the office
   * learns its share × 24 / ΔT; otherwise it learns nothing.
   */
  function OfficeSplit(s: EfficiencyState, kg: real, now: real, reliable: bool,
                       effDelta: real, predHouse: real, predOffice: real): (r: Outcome)
    ensures r.exit == Sampled || r.exit == Raised(ZeroDivisionError)
    ensures r.state.rate == s.rate && r.state.officeStart == s.officeStart && r.state.dwell == s.dwell
    ensures r.exit.Raised? ==> r.state.index == s.index && r.state.window == s.window
    ensures r.exit == Sampled ==> r.state.window == Some(Sample(kg, now))
    ensures !reliable ==>
      r == Close(s.(officeShare := predOffice, houseShare := s.rate), kg, now, s.index, false) &&
      r.state.index == s.index
    ensures reliable && predHouse + predOffice == 0.0 ==> r == Outcome(s, Raised(ZeroDivisionError))
    ensures reliable && predHouse + predOffice != 0.0 ==>
      r.state.officeShare == s.rate * (predOffice / (predHouse + predOffice)) &&
      r.state.houseShare + r.state.officeShare == s.rate &&
      (effDelta == 0.0 <==> r.exit.Raised?) &&
      (effDelta != 0.0 ==> r.state.index == Blend(s.index, r.state.officeShare * 24.0 / effDelta, true))
  {
    var rate := s.rate;
    if reliable then
      var total := predHouse + predOffice;
      if total == 0.0 then Outcome(s, Raised(ZeroDivisionError))
      else
        var officeKg := rate * (predOffice / total);
        var s1 := s.(officeShare := officeKg, houseShare := rate - officeKg);
        if effDelta == 0.0 then Outcome(s1, Raised(ZeroDivisionError))
        else Close(s1, kg, now, officeKg * 24.0 / effDelta, true)
    else
      Close(s.(officeShare := predOffice, houseShare := rate), kg, now, s.index, false)
  }

  /**
   * Attributes the window's burn rate to house and office and computes the
   * index candidate. The office is "reliable" when switch and pump run and it
   * has heated for at least the dwell time; then both buildings burn and the
   * rate is split in proportion to their predicted demand. The house learns
   * only while the office is not reliable; the office only while it is.
   */
  function Attribute(zone: Zone, s: EfficiencyState, kg: real, now: real, reliable: bool,
                     effDelta: real, predHouse: real, predOffice: real): (r: Outcome)
    ensures r.exit == Sampled || r.exit == Raised(ZeroDivisionError)
    ensures r.state.rate == s.rate && r.state.officeStart == s.officeStart && r.state.dwell == s.dwell
    ensures r.exit.Raised? ==> r.state.index == s.index && r.state.window == s.window
    ensures r.exit == Sampled ==> r.state.window == Some(Sample(kg, now))
    ensures zone == House && reliable ==> r.state.index == s.index
    ensures zone == Office && !reliable ==> r.state.index == s.index
    ensures zone == Unassigned ==> r == Outcome(s.(window := Some(Sample(kg, now))), Sampled)
    ensures reliable && zone != Unassigned && r.exit == Sampled ==>
      r.state.houseShare + r.state.officeShare == s.rate
    ensures !reliable && zone != Unassigned ==> r.state.houseShare == s.rate && r.state.officeShare == predOffice
    ensures zone == House && !reliable ==>
      (effDelta == 0.0 <==> r.exit.Raised?) &&
      (effDelta != 0.0 ==> r.state.index == Blend(s.index, s.rate * 24.0 / effDelta, true))
    ensures reliable && zone != Unassigned && predHouse + predOffice == 0.0 ==> r == Outcome(s, Raised(ZeroDivisionError))
    ensures reliable && zone != Unassigned && predHouse + predOffice != 0.0 ==>
      r.state.officeShare == s.rate * (predOffice / (predHouse + predOffice))
    ensures zone == Office && reliable && predHouse + predOffice != 0.0 ==>
      (effDelta == 0.0 <==> r.exit.Raised?) &&
      (effDelta != 0.0 ==> r.state.index == Blend(s.index, r.state.officeShare * 24.0 / effDelta, true))
  {
    match zone
    case House => HouseSplit(s, kg, now, reliable, effDelta, predHouse, predOffice)
    case Office => OfficeSplit(s, kg, now, reliable, effDelta, predHouse, predOffice)
    case Unassigned => Close(s, kg, now, s.index, false)
  }

  /**
   * A window of at least five minutes has closed with burn rate `rate`.
   * While the boiler heats water the window restarts and the index is kept;
   * otherwise the rate is attributed and the index may learn.
   */
  function CloseWindow(zone: Zone, s: EfficiencyState, kg: real, now: real, rate: real, reliable: bool,
                       boiler: Option<EntityState>, effDelta: real, predHouse: real, predOffice: real): (r: Outcome)
    ensures r.state.rate == rate
    ensures r.exit == Sampled || r.exit == DhwFrozen || r.exit == Raised(ZeroDivisionError)
    ensures r.exit == DhwFrozen <==> HeatingWater(boiler)
    ensures r.exit == DhwFrozen ==>
      r.state.index == s.index && r.state.window == Some(Sample(kg, now)) &&
      r.state.houseShare == predHouse && r.state.officeShare == predOffice
    ensures r.state.officeStart == s.officeStart && r.state.dwell == s.dwell
    ensures r.state.index != s.index ==> r.exit == Sampled
    ensures 0.1 < s.index < 15.0 ==> 0.1 < r.state.index < 15.0
    ensures zone == House && r.state.index != s.index ==> !reliable
    ensures zone == Office && r.state.index != s.index ==> reliable
    ensures zone == House && !HeatingWater(boiler) && !reliable && effDelta != 0.0 ==>
      r.exit == Sampled && r.state.index == Blend(s.index, rate * 24.0 / effDelta, true)
    ensures zone == Office && !HeatingWater(boiler) && reliable && effDelta != 0.0 && predHouse + predOffice != 0.0 ==>
      r.exit == Sampled &&
      r.state.officeShare == rate * (predOffice / (predHouse + predOffice)) &&
      r.state.index == Blend(s.index, r.state.officeShare * 24.0 / effDelta, true)
  {
    var s1 := s.(rate := rate);
    if HeatingWater(boiler) then
      Outcome(s1.(window := Some(Sample(kg, now)), houseShare := predHouse, officeShare := predOffice), DhwFrozen)
    else
      Attribute(zone, s1, kg, now, reliable, effDelta, predHouse, predOffice)
  }

  /**
   * Stages 3 to 5 once a counter value `kg` is known: re-baseline, the five
   * minute gate, the rate, the DHW freeze and the attribution.
   */
  function Measure(cfg: Config, s: EfficiencyState, kg: real, now: real, switchOn: bool, pumpOn: bool,
                  boiler: Option<EntityState>, effDelta: real, predHouse: real, predOffice: real): (r: Outcome)
    ensures s.window.None? || kg < s.window.value.value ==>
      r == Outcome(s.(window := Some(Sample(kg, now))), Rebaselined)
    ensures s.window.Some? && kg >= s.window.value.value && now - s.window.value.time < MinWindowSeconds ==>
      r == Outcome(s.(houseShare := predHouse, officeShare := predOffice), Waiting)
    ensures s.window.Some? && kg >= s.window.value.value && now - s.window.value.time >= MinWindowSeconds ==>
      r.state.rate == Rate(kg - s.window.value.value, now - s.window.value.time, NoiseFloorKg) &&
      (r.exit == Sampled || r.exit == DhwFrozen || r.exit == Raised(ZeroDivisionError))
    ensures r.exit == DhwFrozen <==>
      s.window.Some? && kg >= s.window.value.value && now - s.window.value.time >= MinWindowSeconds && HeatingWater(boiler)
    ensures r.exit == DhwFrozen ==>
      r.state.index == s.index && r.state.window == Some(Sample(kg, now)) &&
      r.state.houseShare == predHouse && r.state.officeShare == predOffice
    ensures r.state.index != s.index ==> r.exit == Sampled
    ensures HeatingWater(boiler) ==> r.exit != Sampled
    ensures r.state.officeStart == s.officeStart && r.state.dwell == s.dwell
    ensures 0.1 < s.index < 15.0 ==> 0.1 < r.state.index < 15.0
    ensures cfg.zone == House && r.state.index != s.index ==> !Reliable(switchOn, pumpOn, s.officeStart, s.dwell, now)
    ensures cfg.zone == Office && r.state.index != s.index ==> Reliable(switchOn, pumpOn, s.officeStart, s.dwell, now)
  {
    if s.window.None? || kg < s.window.value.value then
      Outcome(s.(window := Some(Sample(kg, now))), Rebaselined)
    else
      var seconds := now - s.window.value.time;
      if seconds < MinWindowSeconds then
        Outcome(s.(houseShare := predHouse, officeShare := predOffice), Waiting)
      else
        CloseWindow(cfg.zone, s, kg, now, Rate(kg - s.window.value.value, seconds, NoiseFloorKg),
                    Reliable(switchOn, pumpOn, s.officeStart, s.dwell, now), boiler, effDelta, predHouse, predOffice)
  }

  /**
   * What a tick reads before it looks at the counter: the dwell time, the
   * effective temperature difference and the two predicted demands, or the
   * exception that ended the tick. `dwell` in `Broken` records whether the
   * dwell time had already been updated when the exception was raised.
   */
  datatype Conditions =
    | Ready(dwell: real, effDelta: real, predHouse: real, predOffice: real)
    | Broken(dwellSet: Option<real>, fault: Fault)

  /**
   * Stage 2 of a tick: target temperature, weather section, time shift and
   * house index, read in the source's order; the office's prediction uses
   * the sensor's own index.
   */
  function ReadConditions(cfg: Config, index: real, snap: Snapshot): (r: Conditions)
    ensures r.Ready? <==>
      StateOrDefault(snap.targetTemp, 22.0).Success? && WeatherData(snap.data).Success? &&
      StateOrDefault(snap.timeShift, 10.0).Success? && StateOrDefault(snap.houseIndex, 0.62).Success?
    ensures r.Broken? && r.dwellSet.Some? ==> StateOrDefault(snap.houseIndex, 0.62) == Failure(r.fault)
    ensures r.Ready? ==>
      var wd := WeatherData(snap.data).value;
      r.effDelta == EffectiveDelta(cfg.useWind, snap.windFactor, wd, StateOrDefault(snap.targetTemp, 22.0).value, OutdoorTemperature(wd)) &&
      r.dwell == Dwell(StateOrDefault(snap.timeShift, 10.0).value, OutdoorTemperature(wd))
  {
    var target := StateOrDefault(snap.targetTemp, 22.0);
    var weather := WeatherData(snap.data);
    var base := StateOrDefault(snap.timeShift, 10.0);
    if target.Failure? then Broken(None, target.error)
    else if weather.Failure? then Broken(None, weather.error)
    else
      var wd := weather.value;
      var outdoor := OutdoorTemperature(wd);
      if base.Failure? then Broken(None, base.error)
      else
        var dwell := Dwell(base.value, outdoor);
        var effDelta := EffectiveDelta(cfg.useWind, snap.windFactor, wd, target.value, outdoor);
        var houseIndex := StateOrDefault(snap.houseIndex, 0.62);
        if houseIndex.Failure? then Broken(Some(dwell), houseIndex.error)
        else Ready(dwell, effDelta, houseIndex.value * effDelta / 24.0, index * effDelta / 24.0)
  }

  /**
   * One coordinator tick. The stages run in the source's order; target
   * temperature, time shift and house index are read with the inline
   * "placeholder means default" form, which raises on a state that does not
   * parse, and a payload that is not a dictionary raises when the weather
   * section is looked up.
   */
  function Tick(cfg: Config, s: EfficiencyState, snap: Snapshot, now: real): (r: Outcome)
    ensures r.state.pumpOn == InState(snap.officePump, "on")
    ensures !SwitchOn(snap) ==> r.state.officeStart.None?
    ensures r.state.index != s.index ==> r.exit == Sampled
    ensures HeatingWater(snap.boilerStatus) ==> r.exit != Sampled
    ensures 0.1 < s.index < 15.0 ==> 0.1 < r.state.index < 15.0
    ensures r.exit == Rebaselined ==>
      r.state.index == s.index && r.state.rate == s.rate && r.state.window.Some? && r.state.window.value.time == now
    ensures r.exit == Waiting ==> r.state.index == s.index && r.state.window == s.window && r.state.rate == s.rate
    ensures r.exit == DhwFrozen ==> r.state.index == s.index && r.state.window.Some? && r.state.window.value.time == now
    ensures r.exit != Sampled && r.exit != DhwFrozen && r.exit != Rebaselined ==> r.state.window == s.window
    ensures cfg.zone == House && r.state.index != s.index ==>
      !Reliable(SwitchOn(snap), InState(snap.officePump, "on"), r.state.officeStart, r.state.dwell, now)
    ensures cfg.zone == Office && r.state.index != s.index ==>
      Reliable(SwitchOn(snap), InState(snap.officePump, "on"), r.state.officeStart, r.state.dwell, now)
  {
    var switchOn := SwitchOn(snap);
    var pumpOn := InState(snap.officePump, "on");
    var s1 := TrackOffice(s, switchOn, pumpOn, now);
    match ReadConditions(cfg, s.index, snap)
    case Broken(dwellSet, fault) => Outcome(if dwellSet.Some? then s1.(dwell := dwellSet.value) else s1, Raised(fault))
    case Ready(dwell, effDelta, predHouse, predOffice) =>
      var s2 := s1.(dwell := dwell);
      match CounterReading(cfg.attrName, snap.consumption)
      case None => Outcome(s2, NoReading)
      case Some(kg) => Measure(cfg, s2, kg, now, switchOn, pumpOn, snap.boilerStatus, effDelta, predHouse, predOffice)
  }

  /** The ticks of a run, one snapshot and one clock reading per tick. */
  function Run(cfg: Config, s: EfficiencyState, ticks: seq<(Snapshot, real)>): EfficiencyState
    decreases |ticks|
  {
    if |ticks| == 0 then s
    else Run(cfg, Tick(cfg, s, ticks[0].0, ticks[0].1).state, ticks[1..])
  }

  // ---------------------------------------------------------------------
  // Properties

  /**
   * A window of at least five minutes over a non-decreasing counter closes
   * with the window's burn rate and the office's reliability at this moment.
   */
  lemma MeasureClosesWindow(cfg: Config, s: EfficiencyState, kg: real, now: real, switchOn: bool, pumpOn: bool,
                            boiler: Option<EntityState>, effDelta: real, predHouse: real, predOffice: real)
    requires s.window.Some? && kg >= s.window.value.value && now - s.window.value.time >= MinWindowSeconds
    ensures Measure(cfg, s, kg, now, switchOn, pumpOn, boiler, effDelta, predHouse, predOffice) ==
      CloseWindow(cfg.zone, s, kg, now, Rate(kg - s.window.value.value, now - s.window.value.time, NoiseFloorKg),
                  Reliable(switchOn, pumpOn, s.officeStart, s.dwell, now), boiler, effDelta, predHouse, predOffice)
  {
  }

  /**
   * While the office does not heat, a house tick that closes a window of
   * `kg − w.value` kilograms over `now − w.time` seconds moves the index a
   * tenth of the way towards that burn rate × 24 / ΔT (when the candidate is
   * in the accepted band).
   */
  lemma HouseTickLearnsBurnRate(cfg: Config, s: EfficiencyState, snap: Snapshot, now: real, w: Sample, kg: real)
    requires cfg.zone == House && !(SwitchOn(snap) && InState(snap.officePump, "on"))
    requires s.window == Some(w) && CounterReading(cfg.attrName, snap.consumption) == Some(kg)
    requires kg >= w.value && now - w.time >= MinWindowSeconds
    requires !HeatingWater(snap.boilerStatus)
    requires ReadConditions(cfg, s.index, snap).Ready? && ReadConditions(cfg, s.index, snap).effDelta != 0.0
    ensures Tick(cfg, s, snap, now).exit == Sampled
    ensures Tick(cfg, s, snap, now).state.index ==
      Blend(s.index, Rate(kg - w.value, now - w.time, NoiseFloorKg) * 24.0 / ReadConditions(cfg, s.index, snap).effDelta, true)
  {
    var switchOn, pumpOn := SwitchOn(snap), InState(snap.officePump, "on");
    var c := ReadConditions(cfg, s.index, snap);
    var s2 := TrackOffice(s, switchOn, pumpOn, now).(dwell := c.dwell);
    assert s2.window == Some(w) && s2.index == s.index;
    var m := Measure(cfg, s2, kg, now, switchOn, pumpOn, snap.boilerStatus, c.effDelta, c.predHouse, c.predOffice);
    assert m.exit == Sampled && m.state.index == Blend(s.index, Rate(kg - w.value, now - w.time, NoiseFloorKg) * 24.0 / c.effDelta, true) by {
      MeasureClosesWindow(cfg, s2, kg, now, switchOn, pumpOn, snap.boilerStatus, c.effDelta, c.predHouse, c.predOffice);
    }
    assert Tick(cfg, s, snap, now) == m;
  }

  /**
   * Once switch and pump have run for the dwell time, an office tick that
   * closes a window outside a DHW run takes the office's share of the
   * window's burn rate, in proportion to the two predicted demands, and
   * moves the index a tenth of the way towards share × 24 / ΔT (when the
   * candidate is in the accepted band).
   */
  lemma OfficeTickLearnsShare(cfg: Config, s: EfficiencyState, snap: Snapshot, now: real, w: Sample, kg: real, c: Conditions)
    requires cfg.zone == Office
    requires s.window == Some(w) && CounterReading(cfg.attrName, snap.consumption) == Some(kg)
    requires kg >= w.value && now - w.time >= MinWindowSeconds
    requires !HeatingWater(snap.boilerStatus)
    requires ReadConditions(cfg, s.index, snap) == c && c.Ready? && c.effDelta != 0.0 && c.predHouse + c.predOffice != 0.0
    requires Reliable(SwitchOn(snap), InState(snap.officePump, "on"),
                      TrackOffice(s, SwitchOn(snap), InState(snap.officePump, "on"), now).officeStart, c.dwell, now)
    ensures Tick(cfg, s, snap, now).exit == Sampled
    ensures Tick(cfg, s, snap, now).state.officeShare ==
      OfficeShareOf(Rate(kg - w.value, now - w.time, NoiseFloorKg), c.predHouse, c.predOffice)
    ensures Tick(cfg, s, snap, now).state.index ==
      Blend(s.index, Tick(cfg, s, snap, now).state.officeShare * 24.0 / c.effDelta, true)
  {
    var switchOn, pumpOn := SwitchOn(snap), InState(snap.officePump, "on");
    var s2 := TrackOffice(s, switchOn, pumpOn, now).(dwell := c.dwell);
    assert s2.window == Some(w) && s2.index == s.index && s2.officeStart == TrackOffice(s, switchOn, pumpOn, now).officeStart;
    var m := Measure(cfg, s2, kg, now, switchOn, pumpOn, snap.boilerStatus, c.effDelta, c.predHouse, c.predOffice);
    MeasureOfficeLearnsShare(cfg, s2, w, kg, now, switchOn, pumpOn, snap.boilerStatus, c.effDelta, c.predHouse, c.predOffice);
    TickMeasures(cfg, s, snap, now, c, kg);
  }

  /** A tick whose conditions read and whose counter reads hands over to `Measure` with the tracked office. */
  lemma TickMeasures(cfg: Config, s: EfficiencyState, snap: Snapshot, now: real, c: Conditions, kg: real)
    requires ReadConditions(cfg, s.index, snap) == c && c.Ready? && CounterReading(cfg.attrName, snap.consumption) == Some(kg)
    ensures Tick(cfg, s, snap, now) ==
      Measure(cfg, TrackOffice(s, SwitchOn(snap), InState(snap.officePump, "on"), now).(dwell := c.dwell), kg, now,
              SwitchOn(snap), InState(snap.officePump, "on"), snap.boilerStatus, c.effDelta, c.predHouse, c.predOffice)
  {
  }

  /** The office's learning step of `Measure`, for a reliable office and a window that closes outside a DHW run. */
  lemma MeasureOfficeLearnsShare(cfg: Config, s: EfficiencyState, w: Sample, kg: real, now: real, switchOn: bool, pumpOn: bool,
                                 boiler: Option<EntityState>, effDelta: real, predHouse: real, predOffice: real)
    requires cfg.zone == Office && s.window == Some(w) && kg >= w.value && now - w.time >= MinWindowSeconds
    requires !HeatingWater(boiler) && effDelta != 0.0 && predHouse + predOffice != 0.0
    requires Reliable(switchOn, pumpOn, s.officeStart, s.dwell, now)
    ensures Measure(cfg, s, kg, now, switchOn, pumpOn, boiler, effDelta, predHouse, predOffice).exit == Sampled
    ensures Measure(cfg, s, kg, now, switchOn, pumpOn, boiler, effDelta, predHouse, predOffice).state.officeShare ==
      OfficeShareOf(Rate(kg - w.value, now - w.time, NoiseFloorKg), predHouse, predOffice)
    ensures Measure(cfg, s, kg, now, switchOn, pumpOn, boiler, effDelta, predHouse, predOffice).state.index ==
      Blend(s.index, Measure(cfg, s, kg, now, switchOn, pumpOn, boiler, effDelta, predHouse, predOffice).state.officeShare * 24.0 / effDelta, true)
  {
    MeasureClosesWindow(cfg, s, kg, now, switchOn, pumpOn, boiler, effDelta, predHouse, predOffice);
  }

  /**
   * Only a switch that exists and reads "off" stops the office: then the
   * office's start is cleared and its index cannot learn. A missing switch
   * counts as on.
   */
  lemma OfficeSwitchOffStopsOffice(cfg: Config, s: EfficiencyState, snap: Snapshot, now: real)
    ensures snap.officeSwitch.None? ==> SwitchOn(snap)
    ensures InState(snap.officeSwitch, "off") ==> Tick(cfg, s, snap, now).state.officeStart.None?
    ensures InState(snap.officeSwitch, "off") && cfg.zone == Office ==> Tick(cfg, s, snap, now).state.index == s.index
  {
  }

  /**
   * A boiler reporting "CWU" or "state_7" heats water: the tick does not
   * sample and the index stays.
   */
  lemma WaterHeatingFreezesIndex(cfg: Config, s: EfficiencyState, snap: Snapshot, now: real)
    requires InState(snap.boilerStatus, "CWU") || InState(snap.boilerStatus, "state_7")
    ensures HeatingWater(snap.boilerStatus)
    ensures Tick(cfg, s, snap, now).exit != Sampled
    ensures Tick(cfg, s, snap, now).state.index == s.index
  {
  }

  /** An index inside (0.1, 15) stays inside over any run of ticks. */
  lemma {:induction false} RunKeepsIndexInBand(cfg: Config, s: EfficiencyState, ticks: seq<(Snapshot, real)>)
    requires 0.1 < s.index < 15.0
    ensures 0.1 < Run(cfg, s, ticks).index < 15.0
    decreases |ticks|
  {
    if |ticks| > 0 {
      RunKeepsIndexInBand(cfg, Tick(cfg, s, ticks[0].0, ticks[0].1).state, ticks[1..]);
    }
  }

  /** A run that never closes a window leaves the index where it was. */
  lemma {:induction false} RunWithoutSamplesKeepsIndex(cfg: Config, s: EfficiencyState, ticks: seq<(Snapshot, real)>)
    requires forall i :: 0 <= i < |ticks| ==> HeatingWater(ticks[i].0.boilerStatus)
    ensures Run(cfg, s, ticks).index == s.index
    decreases |ticks|
  {
    if |ticks| > 0 {
      var t := Tick(cfg, s, ticks[0].0, ticks[0].1);
      assert t.exit != Sampled;
      RunWithoutSamplesKeepsIndex(cfg, t.state, ticks[1..]);
    }
  }
}
