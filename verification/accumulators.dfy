/**
 * The long-term counters of the integration: they turn the boiler's daily
 * statistics, which restart at midnight, into totals that only grow.
 *
 * - The cost total prices every increase of a kg counter at the current
 *   pellet price.
 * - The DHW (domestic hot water) total adds the growth of the boiler's
 *   daily DHW consumption, and after a reset the whole new reading.
 * - The divided consumption splits the growth of the daily consumption
 *   between the house and the office: when both heat, the house takes its
 *   expected share (its baseline in kg per hour over the elapsed time, with
 *   a tolerance) and the office the rest.
 *
 * Restored values after a restart are the initial states; rounding of the
 * shown values is not modelled.
 */
module Accumulators {
  import opened Wrappers
  import opened Reals
  import opened Json
  import opened Entity


  /**
   * `float(data["stats"].get(key, 0.0))` behind the guard `if not data or
   * "stats" not in data: return`: the reading, or `None` when the guard
   * returns or the lookup or conversion raises.
   */
  function StatsReading(data: Json, key: string): (r: Option<real>)
    ensures r.Some? ==> data.JObj? && Lookup(data.fields, "stats").Some? && Lookup(data.fields, "stats").value.JObj?
    ensures r.Some? ==> FloatOf(GetOr(Lookup(data.fields, "stats").value.fields, key, JFloat(0.0, "0.0"))) == Success(r.value)
    ensures (data.JObj? && Lookup(data.fields, "stats").Some? && Lookup(data.fields, "stats").value.JObj? &&
             FloatOf(GetOr(Lookup(data.fields, "stats").value.fields, key, JFloat(0.0, "0.0"))).Success?) ==> r.Some?
  {
    if !data.JObj? then None
    else match Lookup(data.fields, "stats")
      case None => None
      case Some(stats) =>
        if !stats.JObj? then None
        else FloatOf(GetOr(stats.fields, key, JFloat(0.0, "0.0"))).ToOption()
  }

  // ---------------------------------------------------------------------
  // The cost total

  /** The money counted so far and the kg reading it was counted up to. */
  datatype CostState = CostState(total: real, lastKg: real)

  /**
   * One reading of the kg counter at a price per kg: an increase is priced
   * and added; a decrease (the counter was reset) only moves the reference.
   */
  function CostStep(s: CostState, currentKg: real, pricePerKg: real): (r: CostState)
    ensures r.lastKg == currentKg
    ensures currentKg > s.lastKg ==> r.total - s.total == (currentKg - s.lastKg) * pricePerKg
    ensures currentKg <= s.lastKg ==> r.total == s.total
  {
    if currentKg > s.lastKg then CostState(s.total + (currentKg - s.lastKg) * pricePerKg, currentKg)
    else if currentKg < s.lastKg then s.(lastKg := currentKg)
    else s
  }

  /**
   * An update of the cost total: nothing happens while the kg entity is
   * missing or a placeholder, or when its state or the price does not parse
   * (the `ValueError` is caught); the price is the price entity's state per
   * tonne / 1000, or 1.2 when that entity is missing or a placeholder.
   */
  function CostTick(s: CostState, kg: Option<EntityState>, price: Option<EntityState>): (r: CostState)
    ensures kg.None? || Unusable(kg.value.state) ==> r == s
    ensures StateOrDefault(kg, 0.0).Failure? || StateOrDefault(price, 1200.0).Failure? ==> r == s
    ensures kg.Some? && !Unusable(kg.value.state) && StateOrDefault(kg, 0.0).Success? && StateOrDefault(price, 1200.0).Success? ==>
      r == CostStep(s, StateOrDefault(kg, 0.0).value, ValueSafely(price, 1200.0) / 1000.0)
  {
    if kg.None? || Unusable(kg.value.state) then s
    else match FloatOfString(kg.value.state)
      case Failure(_) => s
      case Success(current) =>
        match StateOrDefault(price, 1200.0)
        case Failure(_) => s
        case Success(perTonne) => CostStep(s, current, perTonne / 1000.0)
  }

  /** The cost state after a sequence of kg readings at one price. */
  function CostRun(s: CostState, readings: seq<real>, pricePerKg: real): CostState
    decreases |readings|
  {
    if |readings| == 0 then s else CostRun(CostStep(s, readings[0], pricePerKg), readings[1..], pricePerKg)
  }

  predicate NonDecreasing(xs: seq<real>) {
    forall i, j :: 0 <= i < j < |xs| ==> xs[i] <= xs[j]
  }

  /**
   * While the kg counter only grows and the price stays put, the cost
   * total grows by exactly the kilograms added times the price: nothing is
   * counted twice and nothing is lost between updates.
   */
  lemma {:induction false} CostTelescopes(s: CostState, readings: seq<real>, pricePerKg: real)
    requires |readings| > 0 && NonDecreasing(readings) && s.lastKg <= readings[0]
    ensures CostRun(s, readings, pricePerKg).lastKg == readings[|readings| - 1]
    ensures CostRun(s, readings, pricePerKg).total == s.total + (readings[|readings| - 1] - s.lastKg) * pricePerKg
    decreases |readings|
  {
    var s1 := CostStep(s, readings[0], pricePerKg);
    assert s1.total == s.total + (readings[0] - s.lastKg) * pricePerKg;
    if |readings| > 1 {
      CostTelescopes(s1, readings[1..], pricePerKg);
      var last := readings[|readings| - 1];
      assert readings[1..][|readings[1..]| - 1] == last;
      assert (readings[0] - s.lastKg) * pricePerKg + (last - readings[0]) * pricePerKg
          == (last - s.lastKg) * pricePerKg;
    }
  }

  /** A reset of the kg counter costs nothing: the total stays and counting restarts from the new reading. */
  lemma CostResetCountsNothing(s: CostState, currentKg: real, pricePerKg: real)
    requires currentKg < s.lastKg
    ensures CostStep(s, currentKg, pricePerKg) == CostState(s.total, currentKg)
  {
  }

  // ---------------------------------------------------------------------
  // The DHW total

  /** The kilograms counted so far and the last daily DHW reading. */
  datatype DhwTotalState = DhwTotalState(total: real, lastStat: real)

  /**
   * One daily DHW reading: the growth since the last reading, or the whole
   * reading after the daily counter restarted; only a positive amount is
   * added.
   */
  function DhwStep(s: DhwTotalState, current: real): (r: DhwTotalState)
    ensures r.lastStat == current
    ensures r.total >= s.total
    ensures current >= s.lastStat ==> r.total == s.total + (current - s.lastStat)
    ensures current < s.lastStat ==> r.total == s.total + Max(0.0, current)
  {
    var delta := if current < s.lastStat then current else current - s.lastStat;
    DhwTotalState(if delta > 0.0 then s.total + delta else s.total, current)
  }

  /** An update of the DHW total from the payload; nothing happens when the reading is unavailable. */
  function DhwTick(s: DhwTotalState, data: Json): (r: DhwTotalState)
    ensures StatsReading(data, "dhw_day").None? ==> r == s
    ensures StatsReading(data, "dhw_day").Some? ==> r == DhwStep(s, StatsReading(data, "dhw_day").value)
    ensures r.total >= s.total
  {
    match StatsReading(data, "dhw_day")
    case None => s
    case Some(current) => DhwStep(s, current)
  }

  function DhwRun(s: DhwTotalState, readings: seq<real>): DhwTotalState
    decreases |readings|
  {
    if |readings| == 0 then s else DhwRun(DhwStep(s, readings[0]), readings[1..])
  }

  /** Within a day the DHW total grows by exactly the growth of the boiler's daily DHW reading. */
  lemma {:induction false} DhwTelescopes(s: DhwTotalState, readings: seq<real>)
    requires |readings| > 0 && NonDecreasing(readings) && s.lastStat <= readings[0]
    ensures DhwRun(s, readings).total == s.total + (readings[|readings| - 1] - s.lastStat)
    decreases |readings|
  {
    if |readings| > 1 {
      DhwTelescopes(DhwStep(s, readings[0]), readings[1..]);
      assert readings[1..][|readings[1..]| - 1] == readings[|readings| - 1];
    }
  }

  /** Across midnight the DHW total counts yesterday's growth and then all of today's reading. */
  lemma DhwAcrossMidnight(s: DhwTotalState, evening: real, morning: real)
    requires s.lastStat <= evening && 0.0 <= morning < evening
    ensures DhwRun(s, [evening, morning]).total == s.total + (evening - s.lastStat) + morning
  {
    var s1 := DhwStep(s, evening);
    var s2 := DhwStep(s1, morning);
    assert [evening, morning][1..] == [morning];
    assert [morning][1..] == [];
    assert DhwRun(s, [evening, morning]) == DhwRun(s1, [morning]) == DhwRun(s2, []) == s2;
  }

  // ---------------------------------------------------------------------
  // The divided consumption

  /** Which building a divided-consumption sensor counts for. */
  datatype Share = HouseShare | OfficeShare

  /**
   * The counted total, the last daily reading with its time, the house's
   * baseline in kg per hour and the last increment attributed.
   */
  datatype DividedState = DividedState(total: real, baseline: Option<Sample>, houseBaselineKgh: real, lastIncrement: real)

  /** The host states and payload a divided-consumption update reads. */
  datatype DividedInputs = DividedInputs(
    data: Json,
    houseIndex: Option<EntityState>,
    houseTarget: Option<EntityState>,
    pumpHouse: Option<EntityState>,
    pumpOffice: Option<EntityState>,
    switchOffice: Option<EntityState>,
    boilerStatus: Option<EntityState>)

  /** The current integration's margin on the house's expected share. */
  const Tolerance: real := 1.15

  /** The older integration's margin. */
  const LegacyTolerance: real := 1.00

  /** Hours since the last reading; a gap of more than one hour, or a negative one, counts as none. */
  function ElapsedHours(now: real, since: real): (r: real)
    ensures 0.0 <= r <= 1.0
    ensures 0.0 <= now - since <= 3600.0 ==> r == (now - since) / 3600.0
  {
    var hours := (now - since) / 3600.0;
    if hours > 1.0 || hours < 0.0 then 0.0 else hours
  }

  /** The outdoor temperature the baseline uses: 0 °C when the payload is not a dictionary or the reading fails. */
  function BaselineOutdoor(inp: DividedInputs): real {
    if inp.data.JObj? then OutdoorTemperature(GetOr(inp.data.fields, "weatherdata", JObj([]))) else 0.0
  }

  /** The index model's demand per hour: index × ΔT spread over a day. */
  function HourlyDemand(index: real, deltaT: real): (r: real)
    ensures r * 24.0 == index * deltaT
    ensures index >= 0.0 && deltaT >= 0.0 ==> r >= 0.0
    ensures index > 0.0 && deltaT > 0.0 ==> r > 0.0
  {
    assert index >= 0.0 && deltaT >= 0.0 ==> index * deltaT >= 0.0 by {
      if index >= 0.0 && deltaT >= 0.0 {
        NonNegativeProduct(index, deltaT);
      }
    }
    assert index > 0.0 && deltaT > 0.0 ==> index * deltaT > 0.0 by {
      if index > 0.0 && deltaT > 0.0 {
        PositiveProduct(index, deltaT);
      }
    }
    index * deltaT / 24.0
  }

  /**
   * The house's baseline in kg per hour: index × max(0.1, target − outdoor)
   * / 24, with index 0.8, target 22 °C and outdoor 0 °C whenever the
   * reading is missing or does not parse (every failure is caught).
   */
  function HouseBaselineKgh(inp: DividedInputs): (r: real)
    ensures r == HourlyDemand(ValueSafely(inp.houseIndex, 0.8), Max(0.1, ValueSafely(inp.houseTarget, 22.0) - BaselineOutdoor(inp)))
    ensures ValueSafely(inp.houseIndex, 0.8) >= 0.0 ==> r >= 0.0
    ensures ValueSafely(inp.houseIndex, 0.8) > 0.0 ==> r > 0.0
  {
    HourlyDemand(ValueSafely(inp.houseIndex, 0.8), Max(0.1, ValueSafely(inp.houseTarget, 22.0) - BaselineOutdoor(inp)))
  }



  /** The device states a divided-consumption update looks at. */
  datatype Devices = Devices(houseOn: bool, officePumpOn: bool, officeActive: bool, heatingWater: bool)

  /**
   * The house pump is on; the office pump is on; the office heats (both
   * pumps and the office switch on); the boiler heats hot water.
   */
  function DevicesOf(inp: DividedInputs): (r: Devices)
    ensures r.officeActive <==> r.houseOn && r.officePumpOn && InState(inp.switchOffice, "on")
  {
    var houseOn := InState(inp.pumpHouse, "on");
    var officePumpOn := InState(inp.pumpOffice, "on");
    Devices(houseOn, officePumpOn, houseOn && officePumpOn && InState(inp.switchOffice, "on"),
            inp.boilerStatus.Some? && inp.boilerStatus.value.state in ["CWU", "state_7"])
  }

  /**
   * The part of a positive growth `delta` a sensor attributes to its
   * building, given the house's `expected` kilograms: nothing while the
   * boiler heats water or the house pump is off; the whole growth to the
   * house when only the house heats; when both heat, the house takes at
   * most its expected share with the tolerance and the office the rest.
   */
  function Increment(share: Share, tolerance: real, delta: real, expected: real, dev: Devices): (r: real)
    requires delta > 0.0
    requires dev.officeActive ==> dev.houseOn
    ensures dev.heatingWater || !dev.houseOn ==> r == 0.0
    ensures share == HouseShare && !dev.heatingWater && dev.houseOn && !dev.officeActive ==> r == delta
    ensures share == OfficeShare && !dev.officeActive ==> r == 0.0
    ensures share == HouseShare ==> r <= delta
    ensures share == HouseShare && dev.officeActive && !dev.heatingWater ==> r <= expected * tolerance
    ensures share == HouseShare && expected >= 0.0 && tolerance >= 0.0 ==> r >= 0.0
    ensures share == OfficeShare ==> 0.0 <= r
    ensures share == OfficeShare && expected >= 0.0 && tolerance >= 0.0 ==> r <= delta
    ensures share == OfficeShare && !dev.heatingWater && dev.officeActive ==> r == Max(0.0, delta - expected * tolerance)
  {
    if dev.heatingWater then 0.0
    else if share == HouseShare then
      if !dev.houseOn then 0.0
      else if dev.officeActive then Min(delta, expected * tolerance)
      else delta
    else if dev.officeActive then Max(0.0, delta - Min(delta, expected * tolerance))
    else 0.0
  }

  /**
   * One update with the daily reading `current` in hand, for either
   * integration: `officeGuardRaises` is the older integration's `NameError`,
   * raised as soon as the house pump and the office pump are both on, after
   * the reference reading, its time and the house baseline were updated but
   * before anything is attributed.
   *
   * Nothing happens before the first reference reading (comparing with
   * `None` raises). A reading below the reference restarts counting; one
   * equal to it only refreshes the time.
   */
  function Update(share: Share, tolerance: real, officeGuardRaises: bool, s: DividedState,
                  current: real, houseKgh: real, dev: Devices, now: real): (r: DividedState)
    requires dev.officeActive ==> dev.houseOn
    ensures s.baseline.None? ==> r == s
    ensures s.baseline.Some? ==> r.baseline == Some(Sample(current, now))
    ensures r.total >= s.total
    ensures r.total != s.total ==> r.lastIncrement == r.total - s.total && r.lastIncrement > 0.0
    ensures r.total != s.total ==> !dev.heatingWater && dev.houseOn
    ensures s.baseline.Some? && current < s.baseline.value.value ==> r.total == s.total && r.lastIncrement == 0.0
    ensures s.baseline.Some? && current == s.baseline.value.value ==> r.total == s.total && r.lastIncrement == s.lastIncrement
    ensures s.baseline.Some? && current > s.baseline.value.value && !(officeGuardRaises && dev.houseOn && dev.officePumpOn) ==>
      r.total == s.total + Max(0.0, r.lastIncrement)
    ensures s.baseline.Some? && current > s.baseline.value.value && !(officeGuardRaises && dev.houseOn && dev.officePumpOn) ==>
      r.lastIncrement == Increment(share, tolerance, current - s.baseline.value.value,
                                   houseKgh * ElapsedHours(now, s.baseline.value.time), dev)
    ensures s.baseline.Some? && current > s.baseline.value.value && officeGuardRaises && dev.houseOn && dev.officePumpOn ==>
      r.total == s.total && r.lastIncrement == s.lastIncrement
  {
    match s.baseline
    case None => s
    case Some(last) =>
      if current < last.value then
        s.(baseline := Some(Sample(current, now)), lastIncrement := 0.0)
      else if current - last.value <= 0.0 then
        s.(baseline := Some(Sample(last.value, now)))
      else
        var updated := s.(baseline := Some(Sample(current, now)), houseBaselineKgh := houseKgh);
        if officeGuardRaises && dev.houseOn && dev.officePumpOn then updated
        else
          var inc := Increment(share, tolerance, current - last.value, houseKgh * ElapsedHours(now, last.time), dev);
          updated.(lastIncrement := inc, total := if inc > 0.0 then s.total + inc else s.total)
  }

  /**
   * An update of a divided-consumption sensor from the payload and the host
   * states; nothing happens when the daily reading is unavailable.
   */
  function Divide(share: Share, tolerance: real, officeGuardRaises: bool,
                  s: DividedState, inp: DividedInputs, now: real): (r: DividedState)
    ensures StatsReading(inp.data, "day").None? ==> r == s
    ensures StatsReading(inp.data, "day").Some? ==>
      r == Update(share, tolerance, officeGuardRaises, s, StatsReading(inp.data, "day").value, HouseBaselineKgh(inp), DevicesOf(inp), now)
  {
    match StatsReading(inp.data, "day")
    case None => s
    case Some(current) => Update(share, tolerance, officeGuardRaises, s, current, HouseBaselineKgh(inp), DevicesOf(inp), now)
  }

  /** The current integration's divided-consumption update. */
  function DividedTick(share: Share, s: DividedState, inp: DividedInputs, now: real): (r: DividedState)
    ensures r.total >= s.total
    ensures StatsReading(inp.data, "day").None? || s.baseline.None? ==> r == s
    ensures r.total != s.total ==> !DevicesOf(inp).heatingWater && DevicesOf(inp).houseOn
    ensures StatsReading(inp.data, "day").Some? && s.baseline.Some? && StatsReading(inp.data, "day").value > s.baseline.value.value ==>
      r.total == s.total + Max(0.0, Increment(share, Tolerance, StatsReading(inp.data, "day").value - s.baseline.value.value,
                                              HouseBaselineKgh(inp) * ElapsedHours(now, s.baseline.value.time), DevicesOf(inp)))
  {
    var r := Divide(share, Tolerance, false, s, inp, now);
    assert StatsReading(inp.data, "day").Some? && s.baseline.Some? && StatsReading(inp.data, "day").value > s.baseline.value.value ==>
      r.total == s.total + Max(0.0, r.lastIncrement) &&
      r.lastIncrement == Increment(share, Tolerance, StatsReading(inp.data, "day").value - s.baseline.value.value,
                                   HouseBaselineKgh(inp) * ElapsedHours(now, s.baseline.value.time), DevicesOf(inp));
    r
  }

  /** The older integration's divided-consumption update, with its `NameError`. */
  function LegacyDividedTick(share: Share, s: DividedState, inp: DividedInputs, now: real): (r: DividedState)
    ensures r.total >= s.total
    ensures StatsReading(inp.data, "day").None? || s.baseline.None? ==> r == s
    ensures StatsReading(inp.data, "day").Some? && s.baseline.Some? && StatsReading(inp.data, "day").value > s.baseline.value.value &&
            !(DevicesOf(inp).houseOn && DevicesOf(inp).officePumpOn) ==>
      r.total == s.total + Max(0.0, Increment(share, LegacyTolerance, StatsReading(inp.data, "day").value - s.baseline.value.value,
                                              HouseBaselineKgh(inp) * ElapsedHours(now, s.baseline.value.time), DevicesOf(inp)))
  {
    Divide(share, LegacyTolerance, true, s, inp, now)
  }

  // ---------------------------------------------------------------------
  // Properties of the split

  /**
   * The two sensors' increments for one positive growth add up to exactly
   * the growth when the house heats and the boiler is not heating water,
   * and are both zero otherwise.
   */
  lemma SharesPartitionDelta(tolerance: real, delta: real, expected: real, dev: Devices)
    requires delta > 0.0
    requires dev.officeActive ==> dev.houseOn
    ensures dev.houseOn && !dev.heatingWater ==>
      Increment(HouseShare, tolerance, delta, expected, dev) + Increment(OfficeShare, tolerance, delta, expected, dev) == delta
    ensures !dev.houseOn || dev.heatingWater ==>
      Increment(HouseShare, tolerance, delta, expected, dev) == 0.0 && Increment(OfficeShare, tolerance, delta, expected, dev) == 0.0
  {
  }

  /**
   * The house and office sensors, updated from the same reference reading
   * with the same growth, attribute between them exactly that growth while
   * the house heats and the boiler is not on hot water.
   */
  lemma UpdatesShareTheGrowth(house: DividedState, office: DividedState, current: real, houseKgh: real, dev: Devices, now: real)
    requires house.baseline.Some? && office.baseline == house.baseline
    requires current > house.baseline.value.value
    requires dev.officeActive ==> dev.houseOn
    requires dev.houseOn && !dev.heatingWater
    ensures Update(HouseShare, Tolerance, false, house, current, houseKgh, dev, now).lastIncrement +
            Update(OfficeShare, Tolerance, false, office, current, houseKgh, dev, now).lastIncrement
            == current - house.baseline.value.value
    ensures houseKgh >= 0.0 ==>
      (Update(HouseShare, Tolerance, false, house, current, houseKgh, dev, now).total - house.total) +
      (Update(OfficeShare, Tolerance, false, office, current, houseKgh, dev, now).total - office.total)
      == current - house.baseline.value.value
  {
    var last := house.baseline.value;
    var expected := houseKgh * ElapsedHours(now, last.time);
    SharesPartitionDelta(Tolerance, current - last.value, expected, dev);
    if houseKgh >= 0.0 {
      NonNegativeProduct(houseKgh, ElapsedHours(now, last.time));
      assert Increment(HouseShare, Tolerance, current - last.value, expected, dev) >= 0.0;
    }
  }

  /**
   * The current integration's house and office sensors, updated from the
   * same reference reading, attribute between them exactly the growth of
   * the daily reading while the house heats and the boiler is not on hot
   * water; with a house index that is not negative, their totals shown grow
   * by exactly that growth together.
   */
  lemma DividedSensorsShareTheGrowth(house: DividedState, office: DividedState, inp: DividedInputs, now: real)
    requires house.baseline.Some? && office.baseline == house.baseline
    requires StatsReading(inp.data, "day").Some?
    requires StatsReading(inp.data, "day").value > house.baseline.value.value
    requires DevicesOf(inp).houseOn && !DevicesOf(inp).heatingWater
    ensures DividedTick(HouseShare, house, inp, now).lastIncrement + DividedTick(OfficeShare, office, inp, now).lastIncrement
      == StatsReading(inp.data, "day").value - house.baseline.value.value
    ensures ValueSafely(inp.houseIndex, 0.8) >= 0.0 ==>
      (DividedTick(HouseShare, house, inp, now).total - house.total) + (DividedTick(OfficeShare, office, inp, now).total - office.total)
      == StatsReading(inp.data, "day").value - house.baseline.value.value
  {
    UpdatesShareTheGrowth(house, office, StatsReading(inp.data, "day").value, HouseBaselineKgh(inp), DevicesOf(inp), now);
  }

  /**
   * In the older integration the office sensor never counts anything: the
   * office only gets a share while its pump is on, and exactly then the
   * `NameError` aborts the update.
   */
  lemma LegacyOfficeNeverCounts(s: DividedState, inp: DividedInputs, now: real)
    ensures LegacyDividedTick(OfficeShare, s, inp, now).total == s.total
  {
  }

  /**
   * In the older integration, while both pumps are on, the house sensor
   * counts nothing either, whatever the boiler reports, and its last
   * increment is left as it was or cleared by a reset.
   */
  lemma LegacyBothPumpsOnCountsNothing(s: DividedState, inp: DividedInputs, now: real)
    requires DevicesOf(inp).houseOn && DevicesOf(inp).officePumpOn
    ensures LegacyDividedTick(HouseShare, s, inp, now).total == s.total
    ensures LegacyDividedTick(HouseShare, s, inp, now).lastIncrement == s.lastIncrement ||
            LegacyDividedTick(HouseShare, s, inp, now).lastIncrement == 0.0
  {
  }
}
