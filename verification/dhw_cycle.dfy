/**
 * The DHW (domestic hot water) cycle detector: it watches the boiler's
 * first output (the DHW valve or pump), and when a heating cycle ends it
 * records how long the cycle took and how many kilograms of pellets the
 * hopper counter advanced meanwhile. It shows the running cycle's length,
 * or the last one's, as HH:MM. Times are seconds on the host's clock.
 */
module DhwCycle {
  import opened Wrappers
  import opened Reals
  import opened Text
  import opened Json
  import opened Entity

  /** The detector's memory. */
  datatype Cycle = Cycle(start: Option<real>, startKg: real, lastDurationMin: real, lastUsedKg: real, heating: bool)

  const Idle: Cycle := Cycle(None, 0.0, 0.0, 0.0, false)

  /** A cycle is running exactly when its start is known. */
  predicate Valid(c: Cycle) {
    c.heating <==> c.start.Some?
  }


  /** The first output reads "ON" in any letter case. */
  predicate OutputOn(data: Json) {
    Upper(Str(ApiData(data, "leftoutput.output-1.val", JNull))) == "ON"
  }

  /**
   * The hopper's pellet counter, `float(str(value or 0).replace(",", "."))`;
   * 0 when it is missing or not a number.
   */
  function HopperCounter(data: Json): (r: real)
    ensures !Truthy(ApiData(data, "hopperdata.4", JNull)) ==> r == 0.0
    ensures FloatOfText(ApiData(data, "hopperdata.4", JNull)).Success? ==> r == FloatOfText(ApiData(data, "hopperdata.4", JNull)).value
    ensures FloatOfText(ApiData(data, "hopperdata.4", JNull)).Failure? ==> r == 0.0
  {
    var v := ApiData(data, "hopperdata.4", JNull);
    FloatOfText(if Truthy(v) then v else JInt(0)).GetOr(0.0)
  }

  /**
   * One update. When the output switches on a cycle starts, remembering the
   * time and the counter; when it switches off the cycle's duration in
   * minutes and its pellet use (never negative) are recorded. Otherwise
   * nothing changes.
   */
  function Step(c: Cycle, data: Json, now: real): (r: Cycle)
    ensures r.heating == OutputOn(data)
    ensures Valid(c) ==> Valid(r)
    ensures c.heating == OutputOn(data) ==> r == c
    ensures OutputOn(data) && !c.heating ==>
      r.start == Some(now) && r.startKg == HopperCounter(data) &&
      r.lastDurationMin == c.lastDurationMin && r.lastUsedKg == c.lastUsedKg
    ensures !OutputOn(data) && c.heating && c.start.Some? ==>
      r.lastDurationMin * 60.0 == now - c.start.value && r.lastUsedKg == Max(0.0, HopperCounter(data) - c.startKg)
  {
    var on := OutputOn(data);
    var counter := HopperCounter(data);
    if on && !c.heating then
      c.(start := Some(now), startKg := counter, heating := true)
    else if !on && c.heating then
      match c.start
      case Some(t) => c.(lastDurationMin := (now - t) / 60.0, lastUsedKg := Max(0.0, counter - c.startKg),
                          heating := false, start := None)
      case None => c.(heating := false)
    else c
  }

  /**
   * A full cycle: the output switches on at `t0` and off at `t1`; the
   * detector records t1 − t0 in minutes and the counter's advance.
   */
  lemma CycleRecordsDurationAndUse(c: Cycle, on: Json, t0: real, off: Json, t1: real)
    requires !c.heating
    requires OutputOn(on) && !OutputOn(off)
    ensures Step(Step(c, on, t0), off, t1).lastDurationMin * 60.0 == t1 - t0
    ensures Step(Step(c, on, t0), off, t1).lastUsedKg == Max(0.0, HopperCounter(off) - HopperCounter(on))
    ensures Step(Step(c, on, t0), off, t1).lastUsedKg >= 0.0
    ensures Valid(Step(Step(c, on, t0), off, t1))
  {
    var c1 := Step(c, on, t0);
    assert c1.start == Some(t0) && c1.startKg == HopperCounter(on);
  }

  // ---------------------------------------------------------------------
  // What the sensor shows

  /** `int(x)`: truncation toward zero. */
  function Trunc(x: real): (r: int)
    ensures x >= 0.0 ==> r == x.Floor
    ensures x < 0.0 ==> -1.0 < x - r as real <= 0.0
  {
    if x >= 0.0 then x.Floor else -((-x).Floor)
  }

  /** The minutes shown: the running cycle's so far, or the last cycle's; never negative. */
  function ShownMinutes(c: Cycle, now: real): (r: nat)
    ensures c.heating && c.start.Some? && now >= c.start.value ==>
      r as real <= (now - c.start.value) / 60.0 < r as real + 1.0
    ensures !(c.heating && c.start.Some?) && c.lastDurationMin >= 0.0 ==> r == c.lastDurationMin.Floor
  {
    var total := if c.heating && c.start.Some? then Trunc((now - c.start.value) / 60.0) else Trunc(c.lastDurationMin);
    if total < 0 then 0 else total
  }

  /** A two-digit field, `f"{n:02}"`. */
  function Pad2(n: nat): (r: string)
    ensures |r| >= 2 && AllDigits(r)
    ensures DigitsValue(r) == n
  {
    if n < 10 then
      var s := "0" + NatToString(n);
      LeadingZero(NatToString(n));
      s
    else NatToString(n)
  }

  lemma {:induction false} LeadingZero(s: string)
    requires AllDigits(s)
    ensures AllDigits("0" + s) && DigitsValue("0" + s) == DigitsValue(s)
    decreases |s|
  {
    if |s| > 0 {
      var init := s[..|s| - 1];
      LeadingZero(init);
      assert ("0" + s)[..|"0" + s| - 1] == "0" + init;
    }
  }

  /** The shown text, `HH:MM`. */
  function Clock(minutes: nat): (r: string)
    ensures |r| >= 5 && ':' in r
  {
    Pad2(minutes / 60) + ":" + Pad2(minutes % 60)
  }

  /** Reading the shown text back as hours and minutes gives the minutes it shows. */
  lemma {:induction false} ClockRoundTrip(minutes: nat)
    ensures |Split(Clock(minutes), ':')| == 2
    ensures ParseUnsignedInt(Split(Clock(minutes), ':')[0]) == Some(minutes / 60)
    ensures ParseUnsignedInt(Split(Clock(minutes), ':')[1]) == Some(minutes % 60)
    ensures (minutes % 60) < 60
  {
    var h := Pad2(minutes / 60);
    var m := Pad2(minutes % 60);
    assert ':' !in h by {
      assert forall i :: 0 <= i < |h| ==> IsDigit(h[i]);
    }
    assert ':' !in m by {
      assert forall i :: 0 <= i < |m| ==> IsDigit(m[i]);
    }
    SplitCons(h, m, ':');
    SplitNoSeparator(m, ':');
    assert Clock(minutes) == h + [':'] + m;
  }

  /** What the sensor shows at `now`. */
  function Shown(c: Cycle, now: real): string {
    Clock(ShownMinutes(c, now))
  }
}
