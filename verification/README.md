# StokerCloud sensors, modelled in Dafny

This project models the computational core of a Home Assistant integration for NBE pellet boilers controlled through StokerCloud. The repository holds two generations of the integration:

- the current one, `custom_components/stokercloud_v16`;
- the older one, `custom_components/ha_stokercloud`.

Both read the controller's JSON payload from a coordinator, read the states of other host entities, and derive pellet-consumption figures from them.

The model covers:

- **Payload and state readers.** These walk a dotted path through the payload (`_get_api_data`, `_resolve_path`) and read another entity's state as a number with a fallback (`_get_value_safely`, and the inline `float(s.state) if … else default` form, which raises).
- **`StokerSensor.native_value`.** This shows the boiler status through its state table, the boiler info through its message table, and any other reading as a number when it is one.
- **The DHW cycle detector.** DHW is domestic hot water. The detector records each heating cycle's duration and pellet use, and shows them as `HH:MM`.
- **The efficiency index.** The index is kg of pellets per 24 h per kelvin. It is learned from a shared pellet counter, sampled in windows of at least five minutes. The burn is split between the house and an extra building (the "office") and smoothed with an exponential moving average. Both generations are modelled.
- **The forecasts.**
  - The unified forecast gives today's projection per building and for hot water, in kg or priced. Both generations are modelled.
  - The static forecast remembers its last positive value.
  - The older total-forecast aggregator adds up the component sensors.
- **The accumulators.**
  - The cost total prices each increase of a kg counter.
  - The DHW total follows the boiler's daily DHW statistic across midnight.
  - The divided consumption splits the daily growth between a house sensor and an office sensor.
- **The pellet range.** This is the number of days left in the hopper, in both generations.
- **The binary sensors.** These cover payload flags, boiler outputs, weather-compensation zones and the efficiency anomaly alarm.
- **The older coordinator's helpers.** These cover menu flattening, the hourly menu cache and the tolerant reader of the consumption statistics.

Python's dynamic behaviour is written out:

- A payload value is a `Json` datatype.
- `dict.get`, `float()`, `int()` and `str()` are explicit functions.
- Every exception the source can raise is a `Fault` value. The modelled handlers catch what the source's handlers catch, and keep whatever the code assigned before the raise.
- Times are real numbers of seconds passed in as parameters.
- Floats are exact reals.

The model follows the code as written, including where it evidently misbehaves:

- **Current efficiency index: the wind-factor entity disables wind.** When the wind-factor entity exists, the sensor refers to an undefined name (`wf_state`). The `NameError` is swallowed, so wind is then never applied (`Efficiency.EffectiveDelta`).
- **Current efficiency index: a missing office switch counts as on.** The switch is treated as on unless it exists and reads "off" (`Efficiency.SwitchOn`).
- **Current and older divided consumption: no reference reading, no counting.** Before the first reference reading, comparing with `None` raises, so nothing is ever counted. The model starts from `baseline = None` and leaves the state unchanged (`Accumulators.Update`).
- **Older unified forecast: the office forecast is only what was burnt.** The remaining demand is assigned to a misspelt variable, so the office forecast is only what the office burnt so far (`LegacySensors.LegacyProject`).
- **Older divided consumption: a `NameError` whenever both pumps run.** The sensor refers to an undefined name (`sw_o`) as soon as both pumps are on. So the office sensor never counts anything (`Accumulators.LegacyOfficeNeverCounts`), and the house sensor counts nothing while the office pump runs.

## Model

Source paths are relative to the repository root.

| member | source | states |
|---|---|---|
| Entity.Walk | custom_components/stokercloud_v16/entity.py:29-31 | A dotted-path walk fails as soon as it meets a value that is not a dictionary before the keys run out; with no keys it yields the value itself. |
| Entity.ApiData | custom_components/stokercloud_v16/entity.py:25-32 | An empty payload yields the default; a failed walk yields the default; any non-`None` value the walk reaches is returned, and anything other than the default is such a value. |
| Entity.ResolvePath | custom_components/stokercloud_v16/sensor.py:71-81 | The sensors' path walk agrees with `_get_api_data` with a `None` default. |
| Entity.ValueSafely | custom_components/stokercloud_v16/entity.py:34-39 | A missing entity, a placeholder state or a state that does not parse reads as the default; any other state reads as its number. |
| Entity.StateOrDefault | custom_components/stokercloud_v16/sensor.py:282 | The inline reader raises `ValueError` exactly when a present, non-placeholder state does not parse, and otherwise agrees with `_get_value_safely`. |
| Entity.NestedFloat | custom_components/stokercloud_v16/sensor.py:544-547 | `float((data or {}).get(a, {}).get(b, d))` on an empty payload is the default. |
| Entity.WeatherData | custom_components/stokercloud_v16/sensor.py:283 | The weather section lookup raises exactly when the payload is non-empty and not a dictionary, and is `{}` for an empty payload. |
| Entity.WeatherReading | custom_components/stokercloud_v16/sensor.py:285 | A weather reading is 0 when the key is missing, raises `AttributeError` on a section that is not a dictionary, and otherwise only `ValueError`. |
| Entity.ApiDataTwoKeys | custom_components/stokercloud_v16/entity.py:25-32 | A two-key path reads the inner key of the outer dictionary, with the default for a missing or `None` value. |
| Entity.ValueSafelyReadsRenderedInteger | custom_components/stokercloud_v16/entity.py:34-39 | An entity whose state is an integer's text reads as that integer. |
| Text.PlaceholdersDoNotParse | custom_components/stokercloud_v16/entity.py:36-38 | "unknown" and "unavailable" do not parse as numbers, so the placeholder check and the parse never disagree. |
| Text.DecimalRoundTrip | custom_components/stokercloud_v16/entity.py:37 | `float(str(i))` is `i` for every integer. |
| Json.FloatOfTextOfIntString | custom_components/stokercloud_v16/sensor.py:285 | The comma-tolerant reading of an integer's text is that integer. |
| Const.ReheatKg | custom_components/stokercloud_v16/sensor.py:558-559 | The pellets for a reheat times calorific value times DHW efficiency equal litres × kelvins × the specific heat of water; never negative for non-negative inputs. |
| Efficiency.TrackOffice | custom_components/stokercloud_v16/sensor.py:265-278 | The office start is set when switch and pump run (kept if already set) and cleared when the switch is off. With the pump off it is cleared only after more than 600 s without the pump. Nothing else changes. |
| Efficiency.Dwell | custom_components/stokercloud_v16/sensor.py:289-292 | The dwell time is the base plus 0.8 min per kelvin below 10 °C outdoors, and never less than the base. |
| Efficiency.EffectiveDelta | custom_components/stokercloud_v16/sensor.py:294-302 | The unscaled ΔT, max(1, target − outdoor), is at least 1 K. It is scaled by 5 % per m/s of wind only when wind is enabled, the wind reading parses and the wind-factor entity is absent. |
| Efficiency.Rate | custom_components/stokercloud_v16/sensor.py:332-333 | rate × seconds = Δkg × 3600 above the 0.005 kg noise floor; 0 at or below it; never negative. |
| Efficiency.CounterReading | custom_components/stokercloud_v16/sensor.py:313-317 | No reading for a missing or placeholder entity; otherwise the parsed state (or attribute). |
| Efficiency.Blend | custom_components/stokercloud_v16/sensor.py:379-381 | Only a requested candidate strictly between 0.1 and 15 moves the index, a tenth of the way, staying between old index and candidate. An index inside (0.1, 15) stays inside. |
| Efficiency.ProportionalShares | custom_components/stokercloud_v16/sensor.py:360-363 | Splitting a rate in proportion to two predictions gives back the whole rate. |
| Efficiency.Attribute | custom_components/stokercloud_v16/sensor.py:345-385 | The house learns only while the office is not reliable, the office only while it is. Reliable shares add up to the rate. A zero ΔT raises and keeps the index and window. Any index change is a blend with a candidate in (0.1, 15). |
| Efficiency.HouseSplit | custom_components/stokercloud_v16/sensor.py:353-363 | While the office is not reliable the house learns towards rate × 24 / ΔT, and a zero ΔT raises. While it is, the house index stays and the rate is split in proportion to the two predictions, the shares adding up to the rate; a zero prediction total raises. |
| Efficiency.OfficeSplit | custom_components/stokercloud_v16/sensor.py:365-377 | While the office is not reliable its index stays and the shares are its prediction and the whole rate. While it is, it takes its proportional share and learns towards share × 24 / ΔT; a zero prediction total or ΔT raises. |
| Efficiency.CloseWindow | custom_components/stokercloud_v16/sensor.py:335-385 | A closed window sets the rate. It freezes exactly when the boiler heats water: window restarted, index kept, diagnostics set to the predictions. Otherwise the house learns rate × 24 / ΔT while the office is unreliable, and the office its proportional share while it is reliable. |
| Efficiency.ReadConditions | custom_components/stokercloud_v16/sensor.py:281-310 | The tick's readings succeed exactly when target, weather section, time shift and house index read. Then the dwell time and ΔT are those of the outdoor temperature. A failing house index is the only failure after the dwell time is set. |
| Efficiency.Measure | custom_components/stokercloud_v16/sensor.py:319-385 | The first or a decreasing reading rebaselines. A window under 300 s only refreshes the diagnostics. A closed window sets the rate. The DHW freeze happens exactly when the boiler heats water, restarts the window and keeps the index. |
| Efficiency.Tick | custom_components/stokercloud_v16/sensor.py:260-388 | The index changes only on a closed, attributed window. Never while the boiler heats water. The (0.1, 15) band is kept. A switched-off office has no start. Each exit leaves window and index as stated. |
| Efficiency.HouseTickLearnsBurnRate | custom_components/stokercloud_v16/sensor.py:260-388 | While the office does not heat and no water is heated, a house tick closing a window moves the index a tenth of the way to (Δkg × 3600 / seconds) × 24 / ΔT. |
| Efficiency.OfficeTickLearnsShare | custom_components/stokercloud_v16/sensor.py:346-381 | Once switch and pump have run for the dwell time and no water is heated, an office tick closing a window takes the proportional share rate × pred_office / (pred_house + pred_office) and moves the index a tenth of the way to share × 24 / ΔT. |
| Efficiency.OfficeSwitchOffStopsOffice | custom_components/stokercloud_v16/sensor.py:265-348 | A missing switch counts as on. A switch reading "off" clears the office's start and keeps the office index. |
| Efficiency.WaterHeatingFreezesIndex | custom_components/stokercloud_v16/sensor.py:336-343 | A boiler reporting "CWU" or "state_7" heats water: the tick does not sample and the index stays. |
| Efficiency.RunKeepsIndexInBand | custom_components/stokercloud_v16/sensor.py:379-381 | Over any run of ticks an index inside (0.1, 15) stays inside. |
| Efficiency.RunWithoutSamplesKeepsIndex | custom_components/stokercloud_v16/sensor.py:335-343 | While the boiler heats water at every tick, the index never changes. |
| Forecast.HoursLeft | custom_components/stokercloud_v16/sensor.py:492-494 | Hours left until midnight: between 0 and 24, positive before midnight, exactly (1440 − minutes passed) / 60. |
| Forecast.WindMultiplier | custom_components/stokercloud_v16/sensor.py:502-508 | 1 when the wind speed does not parse. With the wind-factor entity missing, 1 + speed × 0.05. With it present, 1 + speed × its reading / 100, or 1 when that reading does not parse. |
| Forecast.DhwReheat | custom_components/stokercloud_v16/sensor.py:552-559 | No reheat while the tank is within its hysteresis band; below it, the full gap's reheat; never negative for a non-negative volume. |
| Forecast.BuildingForecast | custom_components/stokercloud_v16/sensor.py:514-539 | A building that does not heat projects what it burnt. One that heats adds index × max(0, (target − outdoor) × wind) / 24 for each hour left, so at least what it burnt. |
| Forecast.DhwForecast | custom_components/stokercloud_v16/sensor.py:541-565 | The projection exists exactly when today's DHW burn, the wanted and current tank temperatures and the hysteresis read as numbers. It is then today's burn plus the reheat (none within the hysteresis band) plus 0.02 kg for each hour left. |
| Forecast.Project | custom_components/stokercloud_v16/sensor.py:489-565 | The projection succeeds exactly when payload and weather section are dictionaries and the DHW projection succeeds. The house projects with index 0.8 and target 23 °C by default. The office uses 0.6 and 18 °C and heats only while its switch reads "on". Both use the outdoor temperature and the wind multiplier. The DHW part is the DHW projection. |
| Forecast.Show | custom_components/stokercloud_v16/sensor.py:567-586 | An exception shows 0. Otherwise the weight sensor shows the chosen projection (house, office, DHW, or their sum for the total), and the cost sensor that projection × price per tonne / 1000. |
| Forecast.Unified | custom_components/stokercloud_v16/sensor.py:489-586 | A payload that is not a dictionary, or any failing projection, shows 0. Otherwise the sensor shows the chosen part of the projection, in kg or priced at the pellet price per tonne (1250 when unknown) / 1000. |
| Forecast.UnifiedWeightShowsProjection | custom_components/stokercloud_v16/sensor.py:489-586 | The house and office weight sensors show what the building burnt plus index × max(0, ΔT × wind) / 24 per hour left (the office only while its switch is on); the DHW weight sensor shows the burn, the reheat and the standby loss. |
| Forecast.ShowCost | custom_components/stokercloud_v16/sensor.py:577-582 | A cost sensor shows its weight sibling's kilograms at the price per kilogram. |
| Forecast.ShowTotal | custom_components/stokercloud_v16/sensor.py:567-575 | The total shows the sum of what house, office and DHW show, in kg and in money. |
| Forecast.UnifiedTotalIsSumOfParts | custom_components/stokercloud_v16/sensor.py:567-582 | The total sensor equals the sum of the three part sensors for any inputs and unit. |
| Forecast.WarmTankProjectsStandbyOnly | custom_components/stokercloud_v16/sensor.py:552-565 | Within the hysteresis band the DHW projection is today's burn plus the standby loss. |
| Forecast.PricePerKg | custom_components/stokercloud_v16/sensor.py:676-678 | The price per kg × 1000 is the price entity's reading (1200 by default); it raises exactly when the inline reader does. |
| Forecast.BuildingIndex | custom_components/stokercloud_v16/sensor.py:703-719 | Simulation always uses the slider (0.6 by default). Otherwise a learned index that is no placeholder, "0.0" or "0" is read as a number, and anything else falls back to the slider. |
| Forecast.StaticKg | custom_components/stokercloud_v16/sensor.py:682-732 | A fixed sensor uses the DHW model, any other the building model. |
| Forecast.StaticDhwKg | custom_components/stokercloud_v16/sensor.py:682-700 | A DHW reading of 0 gives 0 kg. Otherwise the model succeeds exactly when tank volume, wanted and current temperature read, and is the reheat of the tank up to 10 K above the wanted temperature, never negative. |
| Forecast.StaticBuildingKg | custom_components/stokercloud_v16/sensor.py:703-732 | The building model succeeds exactly when index, weather section, outdoor reading and target read, and is index × max(0, target − outdoor). |
| Forecast.Settle | custom_components/stokercloud_v16/sensor.py:735-751 | A failed price or model shows and keeps the last valid value. A positive value is shown and remembered. A non-positive one shows the last valid value when that is positive, else itself. |
| Forecast.Static | custom_components/stokercloud_v16/sensor.py:672-751 | The model's kg, or its price, is settled against the last valid value. Once a positive value is remembered, the sensor shows a positive value. A shown positive value is remembered. A change needs the price and the model to succeed. |
| Forecast.StaticBuildingShowsDemand | custom_components/stokercloud_v16/sensor.py:703-741 | With a usable learned index, readable temperatures and a target above outdoors, the weight sensor shows index × (target − outdoor). |
| Forecast.StaticCostShowsPricedKg | custom_components/stokercloud_v16/sensor.py:735-741 | A positive model result shows as kg × price per kg in the cost variant. |
| Forecast.StaticWeightShowsKg | custom_components/stokercloud_v16/sensor.py:735-741 | A positive model result shows as is in the weight variant. |
| Forecast.StaticKgIgnoresUnit | custom_components/stokercloud_v16/sensor.py:682-732 | The model's kilograms do not depend on the unit shown. |
| Forecast.StaticStaysPositive | custom_components/stokercloud_v16/sensor.py:737-751 | Over any sequence of inputs, a positive remembered value stays positive. |
| Accumulators.StatsReading | custom_components/stokercloud_v16/sensor.py:932-939 | A daily statistic is read exactly when the payload is a dictionary with a `stats` dictionary whose entry converts to a number. |
| Accumulators.CostStep | custom_components/stokercloud_v16/sensor.py:817-834 | An increase of the kg counter adds exactly Δkg × price. A decrease or no change adds nothing. The reference becomes the current reading. |
| Accumulators.CostTick | custom_components/stokercloud_v16/sensor.py:800-840 | Nothing changes for a missing, placeholder or unparsable kg state or an unparsable price. Otherwise it is one cost step at the price per tonne / 1000. |
| Accumulators.CostTelescopes | custom_components/stokercloud_v16/sensor.py:817-824 | Over a non-decreasing sequence of readings the total grows by exactly (last − first reference) × price. |
| Accumulators.CostResetCountsNothing | custom_components/stokercloud_v16/sensor.py:831-834 | A counter reset keeps the total and restarts from the new reading. |
| Accumulators.DhwStep | custom_components/stokercloud_v16/sensor.py:1144-1157 | The total never decreases. Within a day it grows by the reading's growth; after a restart of the daily counter, by the new reading. |
| Accumulators.DhwTick | custom_components/stokercloud_v16/sensor.py:1135-1159 | Without a reading nothing changes; otherwise one DHW step; the total never decreases. The older integration's DHW total (custom_components/ha_stokercloud/sensor.py:1272-1294) runs the same step. |
| Accumulators.DhwTelescopes | custom_components/stokercloud_v16/sensor.py:1149-1157 | Within a day the total grows by exactly the growth of the daily DHW reading. |
| Accumulators.DhwAcrossMidnight | custom_components/stokercloud_v16/sensor.py:1145-1157 | Across midnight the total counts the evening's growth plus the whole morning reading. |
| Accumulators.ElapsedHours | custom_components/stokercloud_v16/sensor.py:957-962 | Hours since the reference are within [0, 1]. A gap longer than an hour, or a negative one, counts as zero. |
| Accumulators.HouseBaselineKgh | custom_components/stokercloud_v16/sensor.py:914-929 | The house's baseline × 24 is its index (0.8 by default) × max(0.1, target − outdoor), with a 22 °C default target and the outdoor temperature of the payload's weather section (0 without one). It is non-negative (positive) when the index is. |
| Accumulators.DevicesOf | custom_components/stokercloud_v16/sensor.py:973-980 | The office is active exactly when both pumps and the office switch are on. |
| Accumulators.Increment | custom_components/stokercloud_v16/sensor.py:982-1003 | Nothing is counted while the boiler heats water or the house pump is off. The house alone takes the whole growth. When both heat, the house takes at most its expected share with the tolerance (never negative for a non-negative expectation) and the office the non-negative rest. |
| Accumulators.Update | custom_components/stokercloud_v16/sensor.py:941-1010 | No reference reading: nothing changes. A drop restarts counting without counting; an equal reading counts nothing. A growth moves the reference and adds the positive part of its increment to the total; the older integration's `NameError` with both pumps on adds nothing. The total never decreases. |
| Accumulators.Divide | custom_components/stokercloud_v16/sensor.py:931-1010 | Without a daily reading nothing changes; otherwise one update with the house baseline and the device states. |
| Accumulators.DividedTick | custom_components/stokercloud_v16/sensor.py:931-1010 | A growth of the daily reading adds the positive part of that growth's increment (with the house baseline × hours since the reference as the expectation) to the total. The total never decreases, and grows only while the house heats and the boiler is not on hot water. |
| Accumulators.LegacyDividedTick | custom_components/ha_stokercloud/sensor.py:1078-1157 | Without a reading or reference nothing changes. A growth with the two pumps not both on adds the positive part of its increment at the older tolerance to the total. The total never decreases. |
| Accumulators.SharesPartitionDelta | custom_components/stokercloud_v16/sensor.py:982-1003 | The house's and the office's increments add up to exactly the growth while the house heats and no water is heated, and are both zero otherwise. |
| Accumulators.UpdatesShareTheGrowth | custom_components/stokercloud_v16/sensor.py:949-1009 | House and office updated from the same reference attribute exactly the growth between them. With a non-negative house baseline, their totals together grow by exactly that growth. |
| Accumulators.DividedSensorsShareTheGrowth | custom_components/stokercloud_v16/sensor.py:931-1010 | The two sensors of the current integration split each growth of the daily reading without gap or overlap. With a non-negative house index, the totals they show grow together by exactly that growth. |
| Accumulators.LegacyOfficeNeverCounts | custom_components/ha_stokercloud/sensor.py:1120-1150 | The older office sensor's total never changes. |
| Accumulators.LegacyBothPumpsOnCountsNothing | custom_components/ha_stokercloud/sensor.py:1120-1143 | While both pumps run the older house sensor counts nothing. |
| Range.BurnRate | custom_components/stokercloud_v16/sensor.py:1049-1055 | With both figures positive, the daily rate lies between them, 70 % of the way towards yesterday. Otherwise it falls back to whichever figure is positive. It is positive when either is. |
| Range.DaysLeft | custom_components/stokercloud_v16/sensor.py:1057-1061 | 99 days below 0.5 kg a day; otherwise days × rate = hopper content, never negative for a non-negative hopper. |
| Range.RangeDays | custom_components/stokercloud_v16/sensor.py:1036-1072 | Nothing is shown exactly when the hopper content or yesterday's burn is not a number. An empty payload shows 99 or 0. Otherwise the days left at the blended rate. |
| Range.LegacyRangeDays | custom_components/ha_stokercloud/sensor.py:1193-1221 | The older range divides the hopper by forecast plus today's consumption; 99 when neither entity exists. |
| Range.DaysLeftMonotone | custom_components/stokercloud_v16/sensor.py:1057-1061 | More pellets never mean fewer days. |
| Range.DaysLeftAntitone | custom_components/stokercloud_v16/sensor.py:1057-1061 | A faster burn never means more days. |
| Range.RangeExample | custom_components/stokercloud_v16/sensor.py:1049-1061 | 47 kg, 10 kg yesterday and 8 kg forecast give 5 days. |
| DhwCycle.HopperCounter | custom_components/stokercloud_v16/sensor.py:150-154 | The hopper counter is the parsed value, 0 when it is missing, falsy or not a number. |
| DhwCycle.Step | custom_components/stokercloud_v16/sensor.py:143-172 | The detector follows the output. A new cycle records time and counter. An ended cycle records duration × 60 = elapsed seconds and the non-negative counter advance. Nothing changes while the output keeps its state. |
| DhwCycle.CycleRecordsDurationAndUse | custom_components/stokercloud_v16/sensor.py:156-169 | An on/off pair records t1 − t0 in minutes and the counter's advance, never negative. |
| DhwCycle.Trunc | custom_components/stokercloud_v16/sensor.py:179-181 | `int()` truncates toward zero. |
| DhwCycle.ShownMinutes | custom_components/stokercloud_v16/sensor.py:174-183 | A running cycle shows its whole minutes so far; otherwise the last cycle's whole minutes. |
| DhwCycle.Pad2 | custom_components/stokercloud_v16/sensor.py:184 | A two-digit field holds at least two digits that read back as the number. |
| DhwCycle.Clock | custom_components/stokercloud_v16/sensor.py:183-184 | The shown text has at least five characters and a colon. |
| DhwCycle.ClockRoundTrip | custom_components/stokercloud_v16/sensor.py:183-184 | Splitting the shown `HH:MM` at the colon gives back minutes / 60 and minutes % 60. |
| StatusSensor.Reading | custom_components/stokercloud_v16/sensor.py:85-88 | A list reading stands for its first element, or `None` when empty. |
| StatusSensor.Status | custom_components/stokercloud_v16/sensor.py:91-94 | A missing status shows "Nieznany". Otherwise the code without `lng_` is translated when the table knows it, else shown as is. |
| StatusSensor.Info | custom_components/stokercloud_v16/sensor.py:95-102 | No message shows "OK". An integer message is translated or shown as the number. A non-integer shows its text. |
| StatusSensor.Measurement | custom_components/stokercloud_v16/sensor.py:104-112 | Numbers and numeric texts (decimal comma allowed) show as numbers; other texts and containers as themselves. |
| StatusSensor.NativeValue | custom_components/stokercloud_v16/sensor.py:83-112 | The unique id's ending picks status, info or measurement. An empty payload shows nothing for a measurement. |
| StatusSensor.StatusIgnoresLanguagePrefix | custom_components/stokercloud_v16/sensor.py:93-94 | `lng_`-prefixed codes read like bare codes. |
| StatusSensor.InfoReadsNumberText | custom_components/stokercloud_v16/sensor.py:98-100 | A message number sent as text is translated like the number. |
| StatusSensor.MeasurementReadsIntegerText | custom_components/stokercloud_v16/sensor.py:105-109 | An integer's text shows as that number. |
| BinarySensors.Resolve | custom_components/stokercloud_v16/binary_sensor.py:36-45 | A payload that is not a dictionary yields `None`. A value found is the walk's. |
| BinarySensors.ResolveAgreesWithResolvePath | custom_components/stokercloud_v16/binary_sensor.py:36-45 | The binary sensors' walk equals the sensors' walk, even on an empty payload. |
| BinarySensors.BoilerOffCodes | custom_components/stokercloud_v16/binary_sensor.py:54-63 | A boiler state whose lower-cased text contains any of the off codes is off. |
| BinarySensors.FlagTexts | custom_components/stokercloud_v16/binary_sensor.py:65-68 | "on" in any case and "1" are on; "0", "off" and "" are off. |
| BinarySensors.OutputReadsItsRecord | custom_components/stokercloud_v16/binary_sensor.py:105-115 | An output with a dictionary record is on exactly when the record's `val` reads "ON" in any case; its attributes are the record. |
| BinarySensors.OutputWithoutRecordIsOff | custom_components/stokercloud_v16/binary_sensor.py:105-115 | An output without a dictionary record is off and has no attributes. |
| BinarySensors.ZoneActiveReadsFlag | custom_components/stokercloud_v16/binary_sensor.py:125-128 | A zone is active exactly when its `zone{n}active` entry reads "1", as text or integer; a missing entry leaves it inactive. |
| BinarySensors.OutputAttributes | custom_components/stokercloud_v16/binary_sensor.py:111-115 | An output's attributes are its dictionary, or empty. |
| BinarySensors.AttributeName | custom_components/stokercloud_v16/binary_sensor.py:136-140 | A key whose bare name is in the translation table shows its translation; any other key keeps its own name. |
| BinarySensors.KnownZoneKeysTranslate | custom_components/stokercloud_v16/binary_sensor.py:136-140 | Every name of the translation table is translated for every zone, with or without a dash after the zone prefix. |
| BinarySensors.ZoneFold | custom_components/stokercloud_v16/binary_sensor.py:139-143 | The attribute dictionary has unique names. |
| BinarySensors.ZoneFoldCovers | custom_components/stokercloud_v16/binary_sensor.py:139-143 | Every key of the zone produces its attribute name. |
| BinarySensors.ZoneFoldOnlyZoneKeys | custom_components/stokercloud_v16/binary_sensor.py:139-143 | Every produced name comes from one of the zone's keys. |
| BinarySensors.ZoneFoldLastKeyWins | custom_components/stokercloud_v16/binary_sensor.py:139-143 | A name takes the value of the last zone key that produces it. |
| BinarySensors.ZoneAttributeValue | custom_components/stokercloud_v16/binary_sensor.py:139-143 | Each zone attribute carries the value of the last zone key with that name: the `val` of a dictionary, the value itself otherwise. |
| BinarySensors.ZoneAttributes | custom_components/stokercloud_v16/binary_sensor.py:130-143 | No attributes unless the section is a dictionary. Otherwise the names are unique, every zone key is covered, and nothing else appears. |
| BinarySensors.AnomalyThreshold | custom_components/stokercloud_v16/binary_sensor.py:77-94 | 50 % above the mean with a 30 % threshold alarms; exactly 30 % does not. |
| BinarySensors.AnomalyComparesWithMean | custom_components/stokercloud_v16/binary_sensor.py:85-92 | With all three states numeric, the alarm is on exactly when the mean is positive and the current efficiency exceeds mean × (1 + threshold / 100). |
| BinarySensors.AnomalyNeedsAllReadings | custom_components/stokercloud_v16/binary_sensor.py:85-94 | The alarm needs all three entities with numeric states and a positive mean. |
| Menu.Entries | custom_components/ha_stokercloud/coordinator.py:33-38 | A dictionary menu yields its items; a menu that is neither a dictionary nor a list yields nothing. |
| Menu.ListEntries | custom_components/ha_stokercloud/coordinator.py:36 | Exactly the dictionaries of a list menu yield their (`id`, `value`) pairs. |
| Menu.Renamed | custom_components/ha_stokercloud/coordinator.py:40-42 | Each entry gets the key `menus_<menu>_<item>` and "N/A" becomes `None`, in order. |
| Menu.FlattenMenu | custom_components/ha_stokercloud/coordinator.py:27-45 | An empty menu, or one that is neither a dictionary nor a list, flattens to nothing. Keys are unique. What dictionary and list menus flatten to is stated by `Menu.FlattenKeepsDictItems` and `Menu.FlattenKeepsListItems`. |
| Menu.FlatKeyInjective | custom_components/ha_stokercloud/coordinator.py:42 | Two items of one menu never share a flattened key. |
| Menu.UpdateWithDistinct | custom_components/ha_stokercloud/coordinator.py:40-42 | Assigning keys into a dictionary keeps the last value written under a key. |
| Menu.UpdateWithOrigin | custom_components/ha_stokercloud/coordinator.py:40-42 | Every key of the result was in the dictionary or among the assigned entries. |
| Menu.FlattenKeepsDictItems | custom_components/ha_stokercloud/coordinator.py:33-42 | An item of a dictionary menu is found under its flattened key, with "N/A" as `None`. |
| Menu.FlattenKeepsListItems | custom_components/ha_stokercloud/coordinator.py:35-42 | Every dictionary item of a list menu is found under `menus_<menu>_<str(id)>` with its `value`, "N/A" read as `None`; of several items with the same id text, the last one wins. |
| Menu.RenamedUnique | custom_components/ha_stokercloud/coordinator.py:40-42 | Distinct item names give distinct flattened keys. |
| Menu.FlattenOnlyMenuItems | custom_components/ha_stokercloud/coordinator.py:40-42 | Every flattened key is `menus_<menu>_<item>` for an item of the menu. |
| Menu.ShouldUpdateMenu | custom_components/ha_stokercloud/coordinator.py:119-122 | Menus refresh when never refreshed or more than an hour ago, and not otherwise. |
| Menu.FlattenAll | custom_components/ha_stokercloud/coordinator.py:125-129 | The merged dictionary has unique keys, each from one of the menus. |
| Menu.FlattenAllLastMenuWins | custom_components/ha_stokercloud/coordinator.py:125-127 | A key ends up with the value it has in the last menu that has it. |
| Menu.FlattenAllKeepsEveryKey | custom_components/ha_stokercloud/coordinator.py:125-127 | Every key of every flattened menu is present in the merged dictionary. |
| Menu.FlattenAllKeepsOtherKeys | custom_components/ha_stokercloud/coordinator.py:125-127 | A key that no menu has keeps the value it had before merging. |
| Menu.RefreshMenus | custom_components/ha_stokercloud/coordinator.py:119-133 | The cache changes only when a refresh is due and the menus form a dictionary. Then it takes their merged flattened form, the raw menus and the time. |
| Menu.RefreshTakesLastMenuValue | custom_components/ha_stokercloud/coordinator.py:123-129 | After a refresh, every key of every menu is in the cache, with the value of the last menu that has it. |
| Menu.MenusRefreshAtMostHourly | custom_components/ha_stokercloud/coordinator.py:119-133 | Within an hour after a refresh, a further update leaves the cache alone. |
| Menu.GetSafe | custom_components/ha_stokercloud/coordinator.py:86-100 | A bad structure reads 0. The only escaping failure is `KeyError`, exactly when the data point is a dictionary. |
| Menu.GetSafeReadsPoint | custom_components/ha_stokercloud/coordinator.py:86-100 | A well-formed reply gives back the integer at the requested point, as text or as a number. |
| LegacySensors.Track | custom_components/ha_stokercloud/sensor.py:335-339 | The office start is cleared when the office does not heat. It is set while it heats, and kept once set. |
| LegacySensors.HouseBaseline | custom_components/ha_stokercloud/sensor.py:361 | The house's expected burn × 24 is index × 1.1 × ΔT, so non-negative for non-negative index and ΔT. |
| LegacySensors.Learn | custom_components/ha_stokercloud/sensor.py:344-377 | The house learns rate × 24 / ΔT only while the office does not heat. The office learns only after the 20-minute dwell. Its share is what remains after the house baseline, never negative, and the two shares add up to the rate when the rate covers the baseline. An exception keeps index and window. The band is kept. Past the dwell a house index that fails to read raises; otherwise the house share is the baseline, the office share max(0, rate − baseline), a zero ΔT raises, and the index moves towards office share × 24 / ΔT. |
| LegacySensors.LegacyEffectiveDelta | custom_components/ha_stokercloud/sensor.py:318-327 | The unscaled ΔT, max(1, target − outdoor), is at least 1 K. With wind enabled it is multiplied by the wind multiplier of the current forecast; without wind, or when the wind reading fails, it stays unscaled. |
| LegacySensors.LegacyTick | custom_components/ha_stokercloud/sensor.py:265-381 | There is no reading exactly when the counter is unusable. Waiting changes nothing. The DHW freeze happens exactly when the boiler heats water on a closed window. The house index never changes while the office heats, nor the office index while it does not. The (0.1, 15) band is kept. Rebaselining happens exactly on the first reading or a decrease, waiting exactly on a window under 300 s, and every other exit closes the window with the rate of the counter's growth. |
| LegacySensors.LegacyHouseTickLearnsBurnRate | custom_components/ha_stokercloud/sensor.py:265-377 | While the office does not heat and no water is heated, a house tick closing a window moves the index a tenth of the way to the burn rate × 24 / ΔT. |
| LegacySensors.LegacyOfficeTickLearnsShare | custom_components/ha_stokercloud/sensor.py:333-377 | Once the office has heated for 20 minutes and no water is heated, an office tick closing a window takes max(0, rate − house baseline) and moves the index a tenth of the way to that share × 24 / ΔT. |
| LegacySensors.OfficeHeatingNeedsSwitchAndPump | custom_components/ha_stokercloud/sensor.py:333-351 | The office heats only when its switch and its pump exist and read "on". While it heats the house index stays, and while it does not the office index stays. |
| LegacySensors.LegacyRunKeepsIndexInBand | custom_components/ha_stokercloud/sensor.py:372-373 | Over any run an index inside (0.1, 15) stays inside. |
| LegacySensors.HouseIndexFrozenWhileOfficeHeats | custom_components/ha_stokercloud/sensor.py:344-351 | While the office heats at every tick, the house index never moves. |
| LegacySensors.AttributeSafely | custom_components/ha_stokercloud/sensor.py:480-487 | A missing entity, no attributes or a placeholder attribute gives the default. A numeric attribute gives its number. The only failure is `TypeError`, for a list or dictionary attribute. |
| LegacySensors.LegacyReheat | custom_components/ha_stokercloud/sensor.py:540-546 | No reheat unless the tank is below the requested temperature; then the reheat up to 5 K past it; never negative. |
| LegacySensors.LegacyReheatIsShiftedReheat | custom_components/ha_stokercloud/sensor.py:540-546 | The older reheat is the current one aimed 5 K higher with a 5 K band. |
| LegacySensors.LegacyProject | custom_components/ha_stokercloud/sensor.py:489-567 | A payload or weather section that is not a dictionary raises. Otherwise the projection succeeds exactly when the DHW sensor's low and requested temperatures read. The house projects with index 0.8 and target 22 °C by default and no wind. DHW is the older reheat from the requested and low temperatures. The office projection is exactly what the office burnt. The house projects at least its burn. DHW is non-negative, and a missing DHW sensor projects a 15 K reheat. |
| LegacySensors.LegacyUnified | custom_components/ha_stokercloud/sensor.py:489-567 | A payload that is not a dictionary, or a failing projection, shows 0. Otherwise the sensor shows the chosen part of the older projection, in kg or priced at the pellet price per tonne (1250 when unknown) / 1000. The office weight sensor shows the office's burn so far. |
| LegacySensors.LegacyUnifiedWeightShowsProjection | custom_components/ha_stokercloud/sensor.py:489-567 | The house weight sensor shows what the house burnt plus index × max(0, ΔT) / 24 per hour left, with no wind; the DHW weight sensor shows the reheat alone. |
| LegacySensors.LegacyOfficeIgnoresItsHeating | custom_components/ha_stokercloud/sensor.py:525-532 | The office switch, target and index have no effect on the projection. |
| LegacySensors.ComponentValue | custom_components/ha_stokercloud/sensor.py:989-995 | A missing or placeholder component is skipped; otherwise it is its parsed state. |
| LegacySensors.LastHotWater | custom_components/ha_stokercloud/sensor.py:999-1003 | Without a hot-water component of the kind, the figure is 0. |
| LegacySensors.TotalForecast | custom_components/ha_stokercloud/sensor.py:981-1020 | The total is the linear sum of the other components plus the larger of the last hot-water forecast and the last actual figure, and is at least the sum plus either. |
| LegacySensors.OthersSumAppend | custom_components/ha_stokercloud/sensor.py:1005-1007 | The linear part of two lists of components is the sum of their linear parts. |
| LegacySensors.TypicalTotal | custom_components/ha_stokercloud/sensor.py:981-1020 | House, office, DHW forecast and DHW actual sum to house + office + the larger DHW figure. |

## Left out

- **Side effects and timing.** I/O, the network fetch, retries, `asyncio.gather`, logging and `async_write_ha_state` are out. So are restore-on-restart hooks, state-change subscriptions and the clock. Times and host states are parameters.
- **Rounding.** `round()` on shown values is left out: values are exact reals, and floating-point rounding and `repr` of floats are not modelled.
- DhwCycle.Step: records the last cycle's exact duration in minutes, not `round(duration, 1)` (v16 sensor.py:166), and the exact pellet use, not `round(…, 2)`. Because the sensor shows `int()` of the rounded duration (:181), a 4.96-minute cycle shows 00:05 in the source but 00:04 in `DhwCycle.ShownMinutes`.
- DhwCycle.ShownMinutes: truncates the exact last duration rather than the duration rounded to a tenth of a minute, so it can show one minute less than the source when the duration is within 0.05 minutes below a whole minute.
- **Parsing.** The number parser accepts optionally signed decimal text. Python's `float()` also accepts surrounding whitespace, `_` between digits, exponents, `inf` and `nan`; `Text.ParseDecimal` rejects all of these, so a state such as " 12.5" or "1_000" reads as unparsable in the model.
- **Translation tables.** The state and info translation tables are parameters, because their texts are presentation.
- **Entity identity and presentation.** Entity ids, names, icons and units are out; they are presentation. The sensors' `extra_state_attributes` are out too, except the binary sensors' output and zone attributes (`BinarySensors.OutputAttributes`, `BinarySensors.ZoneAttributes`). This covers `StokerSensor.extra_state_attributes`, the efficiency diagnostics attributes and the time-shift flag.
- **Statistics assembly.** The coordinator's assembly of the statistics dictionary is out. It calls `get_safe` per key, and the stale-data fallback is modelled only as far as `GetSafe` reports a `KeyError`.
- **Other files.** The number, switch, config-flow and setup files, and the other sensors in the two sensor files, are not part of this model. These include the deviation, actual-cost, output, grouped-settings and diagnostic-dump sensors.
- Range.LegacyRangeDays: its second clause states the result as the days left at the summed rate. This is the definition itself. The independent partners are `Range.DaysLeftMonotone` and `Range.DaysLeftAntitone`.
- Efficiency.EffectiveDelta: the wind factor's own value is never used, because of the undefined name. So no contract mentions it.
- LegacySensors.AttributeSafely: does not state the number read from a text attribute; that clause is beyond what the verifier proves within its resource limit.
