/**
 * The binary sensors of the current integration: the generic payload
 * flags, the boiler's outputs, the four weather-compensation zones and
 * the house-efficiency anomaly alarm.
 */
module BinarySensors {
  import opened Wrappers
  import opened Text
  import opened Json
  import opened Entity
  import opened Const

  /**
   * The binary sensors' own path walk: it starts from the payload even
   * when that is empty and yields `None` (`JNull`) as soon as it meets a
   * value that is not a dictionary.
   */
  function Resolve(data: Json, path: string): (r: Json)
    ensures !data.JObj? ==> r == JNull
    ensures r != JNull ==> Walk(data, Split(path, '.')) == Some(r)
  {
    match Walk(data, Split(path, '.'))
    case None => JNull
    case Some(v) => v
  }

  /** The codes that mean the boiler is off or in alarm. */
  const OffCodes: seq<string> := ["state_0", "state_14", "lng_state_0", "lng_state_14"]

  /**
   * A payload flag. A path mentioning "state" is the boiler's state: on
   * unless its lower-cased text contains one of the off codes. Otherwise a
   * text is on when it reads "ON" in any case or is "1", and any other
   * value when it is true in Python's sense. A missing value is off.
   */
  predicate FlagOn(data: Json, path: string) {
    var v := Resolve(data, path);
    if v.JNull? then false
    else if Contains(path, "state") then
      forall code :: code in OffCodes ==> !Contains(Lower(Str(v)), code)
    else if v.JStr? then Upper(v.s) == "ON" || v.s == "1"
    else Truthy(v)
  }

  /** The state of an output: its `val` reads "ON" in any case. */
  predicate OutputOn(data: Json, outputId: string) {
    Upper(Str(Resolve(data, "leftoutput." + outputId + ".val"))) == "ON"
  }

  /** The attributes of an output: the output's own dictionary, or nothing. */
  function OutputAttributes(data: Json, outputId: string): (r: seq<(string, Json)>)
    ensures Resolve(data, "leftoutput." + outputId).JObj? ==> r == Resolve(data, "leftoutput." + outputId).fields
    ensures !Resolve(data, "leftoutput." + outputId).JObj? ==> r == []
  {
    match Resolve(data, "leftoutput." + outputId)
    case JObj(fields) => fields
    case _ => []
  }

  // ---------------------------------------------------------------------
  // Weather-compensation zones

  /** `f"zone{n}"`. */
  function ZonePrefix(zone: nat): string {
    "zone" + NatToString(zone)
  }

  /** `f"zone{n}active"`, the key of a zone's flag. */
  function ZoneFlag(zone: nat): string {
    ZonePrefix(zone) + "active"
  }

  /** A zone is active when its `zone{n}active` flag reads "1" (a missing flag reads "0"). */
  predicate ZoneActive(data: Json, zone: nat) {
    var v := Resolve(data, "weathercomp." + ZoneFlag(zone));
    Str(if v.JNull? then JStr("0") else v) == "1"
  }

  /**
   * The attribute name of a zone key: the zone prefix removed (with its
   * dash, then without), translated when the name is a known one, the
   * original key otherwise.
   */
  function AttributeName(key: string, zone: nat): (r: string)
    ensures Lookup(WeatherZoneTranslations, ReplaceAll(ReplaceAll(key, ZonePrefix(zone) + "-", ""), ZonePrefix(zone), "")).None? ==> r == key
    ensures Lookup(WeatherZoneTranslations, ReplaceAll(ReplaceAll(key, ZonePrefix(zone) + "-", ""), ZonePrefix(zone), "")).Some? ==>
      r == Lookup(WeatherZoneTranslations, ReplaceAll(ReplaceAll(key, ZonePrefix(zone) + "-", ""), ZonePrefix(zone), "")).value
  {
    var bare := ReplaceAll(ReplaceAll(key, ZonePrefix(zone) + "-", ""), ZonePrefix(zone), "");
    Lookup(WeatherZoneTranslations, bare).GetOr(key)
  }

  /** An attribute value: the `val` of a dictionary, the value itself otherwise. */
  function AttributeValue(v: Json): Json {
    if v.JObj? then Get(v.fields, "val") else v
  }

  /** A key of the weather-compensation section that belongs to the zone. */
  predicate ZoneKey(key: string, zone: nat) {
    StartsWith(key, ZonePrefix(zone))
  }

  /**
   * The dictionary comprehension over the weather-compensation section:
   * each key of this zone, in order, is stored under its attribute name, a
   * later key with the same name overwriting the value.
   */
  function ZoneFold(fields: seq<(string, Json)>, zone: nat, acc: seq<(string, Json)>): (r: seq<(string, Json)>)
    ensures UniqueKeys(acc) ==> UniqueKeys(r)
    decreases |fields|
  {
    if |fields| == 0 then acc
    else
      var acc' := if ZoneKey(fields[0].0, zone) then Store(acc, AttributeName(fields[0].0, zone), AttributeValue(fields[0].1)) else acc;
      ZoneFold(fields[1..], zone, acc')
  }

  /** Names already present stay present, and every key of the zone gets its name. */
  lemma {:induction false} ZoneFoldCovers(fields: seq<(string, Json)>, zone: nat, acc: seq<(string, Json)>, name: string)
    requires Lookup(acc, name).Some? || exists i :: 0 <= i < |fields| && ZoneKey(fields[i].0, zone) && AttributeName(fields[i].0, zone) == name
    ensures Lookup(ZoneFold(fields, zone, acc), name).Some?
    decreases |fields|
  {
    if |fields| > 0 {
      var acc' := if ZoneKey(fields[0].0, zone) then Store(acc, AttributeName(fields[0].0, zone), AttributeValue(fields[0].1)) else acc;
      if Lookup(acc', name).None? {
        var i :| 0 <= i < |fields| && ZoneKey(fields[i].0, zone) && AttributeName(fields[i].0, zone) == name;
        assert i != 0;
        assert fields[1..][i - 1] == fields[i];
      }
      ZoneFoldCovers(fields[1..], zone, acc', name);
    }
  }

  /** A name the fold produces was already there or is the name of one of the zone's keys. */
  lemma {:induction false} ZoneFoldOnlyZoneKeys(fields: seq<(string, Json)>, zone: nat, acc: seq<(string, Json)>, name: string)
    requires Lookup(ZoneFold(fields, zone, acc), name).Some?
    requires Lookup(acc, name).None?
    ensures exists i :: 0 <= i < |fields| && ZoneKey(fields[i].0, zone) && AttributeName(fields[i].0, zone) == name
    decreases |fields|
  {
    var acc' := if ZoneKey(fields[0].0, zone) then Store(acc, AttributeName(fields[0].0, zone), AttributeValue(fields[0].1)) else acc;
    if Lookup(acc', name).None? {
      ZoneFoldOnlyZoneKeys(fields[1..], zone, acc', name);
      var j :| 0 <= j < |fields[1..]| && ZoneKey(fields[1..][j].0, zone) && AttributeName(fields[1..][j].0, zone) == name;
      assert fields[j + 1] == fields[1..][j];
    } else {
      assert ZoneKey(fields[0].0, zone) && AttributeName(fields[0].0, zone) == name;
    }
  }

  /** The fold leaves a name that none of the zone's keys produces as it was. */
  lemma {:induction false} ZoneFoldKeepsOtherNames(fields: seq<(string, Json)>, zone: nat, acc: seq<(string, Json)>, name: string)
    requires forall j :: 0 <= j < |fields| && ZoneKey(fields[j].0, zone) ==> AttributeName(fields[j].0, zone) != name
    ensures Lookup(ZoneFold(fields, zone, acc), name) == Lookup(acc, name)
    decreases |fields|
  {
    if |fields| > 0 {
      var acc' := if ZoneKey(fields[0].0, zone) then Store(acc, AttributeName(fields[0].0, zone), AttributeValue(fields[0].1)) else acc;
      assert Lookup(acc', name) == Lookup(acc, name);
      forall j | 0 <= j < |fields[1..]| && ZoneKey(fields[1..][j].0, zone)
        ensures AttributeName(fields[1..][j].0, zone) != name
      {
        assert fields[1..][j] == fields[j + 1];
      }
      ZoneFoldKeepsOtherNames(fields[1..], zone, acc', name);
    }
  }

  /** A name takes the value of the last of the zone's keys that produces it. */
  lemma {:induction false} ZoneFoldLastKeyWins(fields: seq<(string, Json)>, zone: nat, acc: seq<(string, Json)>, i: nat)
    requires i < |fields| && ZoneKey(fields[i].0, zone)
    requires forall j :: i < j < |fields| && ZoneKey(fields[j].0, zone) ==> AttributeName(fields[j].0, zone) != AttributeName(fields[i].0, zone)
    ensures Lookup(ZoneFold(fields, zone, acc), AttributeName(fields[i].0, zone)) == Some(AttributeValue(fields[i].1))
    decreases |fields|
  {
    var name := AttributeName(fields[i].0, zone);
    var acc' := if ZoneKey(fields[0].0, zone) then Store(acc, AttributeName(fields[0].0, zone), AttributeValue(fields[0].1)) else acc;
    if i == 0 {
      assert Lookup(acc', name) == Some(AttributeValue(fields[0].1));
      forall j | 0 <= j < |fields[1..]| && ZoneKey(fields[1..][j].0, zone)
        ensures AttributeName(fields[1..][j].0, zone) != name
      {
        assert fields[1..][j] == fields[j + 1];
      }
      ZoneFoldKeepsOtherNames(fields[1..], zone, acc', name);
    } else {
      assert fields[1..][i - 1] == fields[i];
      forall j | i - 1 < j < |fields[1..]| && ZoneKey(fields[1..][j].0, zone)
        ensures AttributeName(fields[1..][j].0, zone) != name
      {
        assert fields[1..][j] == fields[j + 1];
      }
      ZoneFoldLastKeyWins(fields[1..], zone, acc', i - 1);
    }
  }

  /**
   * The attributes of a zone sensor: the zone's keys of the
   * weather-compensation section under their attribute names; nothing when
   * that section is not a dictionary.
   */
  function ZoneAttributes(data: Json, zone: nat): (r: seq<(string, Json)>)
    ensures !Resolve(data, "weathercomp").JObj? ==> r == []
    ensures UniqueKeys(r)
    ensures Resolve(data, "weathercomp").JObj? ==>
      var fields := Resolve(data, "weathercomp").fields;
      (forall i :: 0 <= i < |fields| && ZoneKey(fields[i].0, zone) ==>
        Lookup(r, AttributeName(fields[i].0, zone)).Some?) &&
      (forall name :: Lookup(r, name).Some? ==>
        exists i :: 0 <= i < |fields| && ZoneKey(fields[i].0, zone) && AttributeName(fields[i].0, zone) == name)
  {
    match Resolve(data, "weathercomp")
    case JObj(fields) =>
      var r := ZoneFold(fields, zone, []);
      assert forall i :: 0 <= i < |fields| && ZoneKey(fields[i].0, zone) ==> Lookup(r, AttributeName(fields[i].0, zone)).Some? by {
        forall i | 0 <= i < |fields| && ZoneKey(fields[i].0, zone)
          ensures Lookup(r, AttributeName(fields[i].0, zone)).Some?
        {
          ZoneFoldCovers(fields, zone, [], AttributeName(fields[i].0, zone));
        }
      }
      assert forall name :: Lookup(r, name).Some? ==>
          exists i :: 0 <= i < |fields| && ZoneKey(fields[i].0, zone) && AttributeName(fields[i].0, zone) == name by {
        forall name | Lookup(r, name).Some?
          ensures exists i :: 0 <= i < |fields| && ZoneKey(fields[i].0, zone) && AttributeName(fields[i].0, zone) == name
        {
          ZoneFoldOnlyZoneKeys(fields, zone, [], name);
        }
      }
      r
    case _ => []
  }

  // ---------------------------------------------------------------------
  // The efficiency anomaly

  /**
   * The anomaly alarm: on when the current house efficiency exceeds the
   * mean efficiency by more than the threshold (in percent). Off when any
   * of the three entities is missing or not a number, or the mean is not
   * positive.
   */
  predicate AnomalyOn(current: Option<EntityState>, mean: Option<EntityState>, threshold: Option<EntityState>) {
    current.Some? && mean.Some? && threshold.Some? &&
    AboveMean(FloatOfString(current.value.state), FloatOfString(mean.value.state), FloatOfString(threshold.value.state))
  }

  /** The comparison once the three texts are read; a failed reading is caught and reads as off. */
  predicate AboveMean(now: Result<real, Fault>, avg: Result<real, Fault>, percent: Result<real, Fault>) {
    match (now, avg, percent)
    case (Success(now), Success(avg), Success(percent)) => avg > 0.0 && now > avg * (1.0 + percent / 100.0)
    case _ => false
  }

  // ---------------------------------------------------------------------
  // Properties

  /**
   * The binary sensors' walk agrees with the entities' `_get_api_data`
   * walk with no default: starting from an empty payload changes nothing.
   */
  lemma ResolveAgreesWithResolvePath(data: Json, path: string)
    ensures Resolve(data, path) == ResolvePath(data, path)
  {
    var keys := Split(path, '.');
    if !Truthy(data) && data.JObj? {
      assert data.fields == [];
      assert Get(data.fields, keys[0]) == JNull;
      if |keys| > 1 {
        assert Walk(JNull, keys[1..]).None?;
      } else {
        assert keys[1..] == [];
      }
    }
  }

  /**
   * A boiler state whose text, lower-cased, contains any of the off codes
   * is off, whatever else the text holds ("LNG_STATE_14" and
   * "state_140" included).
   */
  lemma BoilerOffCodes(data: Json, path: string, code: string)
    requires Contains(path, "state")
    requires code in OffCodes && Contains(Lower(Str(Resolve(data, path))), code)
    ensures !FlagOn(data, path)
  {
  }

  /** The keys of `section.id` and of `section.id.field`, for names without dots. */
  lemma SplitRecordPath(section: string, id: string, field: string)
    requires '.' !in section && '.' !in id && '.' !in field
    ensures Split(section + "." + id, '.') == [section, id]
    ensures Split(section + "." + id + "." + field, '.') == [section, id] + [field]
  {
    SplitPair(section, id);
    SplitPair(id, field);
    assert section + "." + id + "." + field == section + ['.'] + (id + "." + field);
    SplitCons(section, id + "." + field, '.');
  }

  lemma SplitPair(a: string, b: string)
    requires '.' !in a && '.' !in b
    ensures Split(a + "." + b, '.') == [a, b]
  {
    SplitNoSeparator(b, '.');
    assert a + "." + b == a + ['.'] + b;
    SplitCons(a, b, '.');
  }

  /**
   * An output's record is the dictionary at `leftoutput.<id>`: the output
   * is on exactly when the record's `val` reads "ON" in any case, and its
   * attributes are the record itself.
   */
  lemma OutputReadsItsRecord(data: Json, outputId: string, record: seq<(string, Json)>)
    requires '.' !in outputId
    requires Resolve(data, "leftoutput." + outputId) == JObj(record)
    ensures OutputOn(data, outputId) <==> Upper(Str(Get(record, "val"))) == "ON"
    ensures OutputAttributes(data, outputId) == record
  {
    OutputPaths(data, outputId);
  }

  /** An output without a dictionary record is off and has no attributes. */
  lemma OutputWithoutRecordIsOff(data: Json, outputId: string)
    requires '.' !in outputId
    requires !Resolve(data, "leftoutput." + outputId).JObj?
    ensures !OutputOn(data, outputId)
    ensures OutputAttributes(data, outputId) == []
  {
    OutputPaths(data, outputId);
    assert Upper("None") == "NONE";
  }

  /** The state path of an output reads the `val` of its record. */
  lemma OutputPaths(data: Json, outputId: string)
    requires '.' !in outputId
    ensures Resolve(data, "leftoutput." + outputId).JObj? ==>
      Resolve(data, "leftoutput." + outputId + ".val") == Get(Resolve(data, "leftoutput." + outputId).fields, "val")
    ensures !Resolve(data, "leftoutput." + outputId).JObj? ==> Resolve(data, "leftoutput." + outputId + ".val") == JNull
  {
    var keys := ["leftoutput", outputId];
    assert "leftoutput." + outputId == "leftoutput" + "." + outputId;
    assert "leftoutput." + outputId + ".val" == "leftoutput" + "." + outputId + "." + "val";
    SplitRecordPath("leftoutput", outputId, "val");
    WalkOneFurther(data, keys, "val");
  }

  /**
   * A zone's flag is the `zone{n}active` entry of the weather-compensation
   * section: the zone is active exactly when that entry reads "1" (the text
   * or the integer), and a missing entry leaves it inactive.
   */
  lemma ZoneActiveReadsFlag(data: Json, zone: nat, section: seq<(string, Json)>)
    requires Resolve(data, "weathercomp") == JObj(section)
    ensures ZoneActive(data, zone) <==> Str(Get(section, ZoneFlag(zone))) == "1"
    ensures Lookup(section, ZoneFlag(zone)).None? ==> !ZoneActive(data, zone)
    ensures Get(section, ZoneFlag(zone)) in [JStr("1"), JInt(1)] ==> ZoneActive(data, zone)
    ensures Get(section, ZoneFlag(zone)) in [JStr("0"), JInt(0)] ==> !ZoneActive(data, zone)
  {
    ZoneFlagPath(data, zone, section);
    assert Str(JNull) != "1";
    assert IntToString(1) == "1" && IntToString(0) == "0";
  }

  /** The flag path of a zone reads the `zone{n}active` entry of the weather-compensation section. */
  lemma ZoneFlagPath(data: Json, zone: nat, section: seq<(string, Json)>)
    requires Resolve(data, "weathercomp") == JObj(section)
    ensures Resolve(data, "weathercomp." + ZoneFlag(zone)) == Get(section, ZoneFlag(zone))
  {
    var flag := ZoneFlag(zone);
    ZoneFlagHasNoDot(zone);
    SectionPath("weathercomp", flag);
    SplitNoSeparator("weathercomp", '.');
    SplitRecordPath("weathercomp", flag, "val");
    assert ["weathercomp", flag] == ["weathercomp"] + [flag];
    WalkOneFurther(data, ["weathercomp"], flag);
  }

  /** The weather-compensation section's name has no dot, and a key joins it after one. */
  lemma SectionPath(section: string, key: string)
    requires section == "weathercomp"
    ensures '.' !in section
    ensures "weathercomp." + key == section + "." + key
  {
  }

  lemma ZoneFlagHasNoDot(zone: nat)
    ensures '.' !in ZoneFlag(zone)
  {
    var flag := ZonePrefix(zone) + "active";
    var digits := NatToString(zone);
    assert flag == "zone" + digits + "active";
    forall j | 0 <= j < |flag|
      ensures flag[j] != '.'
    {
      if 4 <= j < 4 + |digits| {
        assert flag[j] == digits[j - 4];
      }
    }
  }

  /** "on", "On", "ON" and "1" are on; "0" and "off" are off. */
  lemma FlagTexts(data: Json, path: string, text: string)
    requires !Contains(path, "state")
    requires Resolve(data, path) == JStr(text)
    ensures text in ["on", "On", "ON", "oN", "1"] ==> FlagOn(data, path)
    ensures text in ["0", "off", ""] ==> !FlagOn(data, path)
  {
  }

  /**
   * With an efficiency 50 % above the mean and a 30 % threshold the alarm
   * is on; at exactly the threshold it is off.
   */
  lemma AnomalyThreshold(current: Option<EntityState>, mean: Option<EntityState>, threshold: Option<EntityState>)
    requires current == Some(EntityState("3", [])) && mean == Some(EntityState("2", [])) && threshold == Some(EntityState("30", []))
    ensures AnomalyOn(current, mean, threshold)
    ensures !AnomalyOn(Some(EntityState("26", [])), Some(EntityState("20", [])), threshold)
  {
    DecimalRoundTrip(3);
    DecimalRoundTrip(2);
    DecimalRoundTrip(30);
    DecimalRoundTrip(26);
    DecimalRoundTrip(20);
    assert IntToString(3) == "3" && IntToString(2) == "2" && IntToString(30) == "30";
    assert IntToString(26) == "26" && IntToString(20) == "20";
  }

  /**
   * With all three entities present and numeric, the alarm is on exactly
   * when the mean is positive and the current efficiency exceeds the mean
   * by more than the threshold percentage.
   */
  lemma AnomalyComparesWithMean(current: Option<EntityState>, mean: Option<EntityState>, threshold: Option<EntityState>,
                                now: real, avg: real, percent: real)
    requires current.Some? && FloatOfString(current.value.state) == Success(now)
    requires mean.Some? && FloatOfString(mean.value.state) == Success(avg)
    requires threshold.Some? && FloatOfString(threshold.value.state) == Success(percent)
    ensures AnomalyOn(current, mean, threshold) <==> avg > 0.0 && now > avg * (1.0 + percent / 100.0)
  {
    AnomalyReadsParsedStates(current, mean, threshold, now, avg, percent);
    AboveMeanOfReadings(now, avg, percent);
  }

  lemma AnomalyReadsParsedStates(current: Option<EntityState>, mean: Option<EntityState>, threshold: Option<EntityState>,
                                 now: real, avg: real, percent: real)
    requires current.Some? && FloatOfString(current.value.state) == Success(now)
    requires mean.Some? && FloatOfString(mean.value.state) == Success(avg)
    requires threshold.Some? && FloatOfString(threshold.value.state) == Success(percent)
    ensures AnomalyOn(current, mean, threshold) == AboveMean(Success(now), Success(avg), Success(percent))
  {
  }

  lemma AboveMeanOfReadings(now: real, avg: real, percent: real)
    ensures AboveMean(Success(now), Success(avg), Success(percent)) <==> avg > 0.0 && now > avg * (1.0 + percent / 100.0)
  {
  }

  /** A missing or unparsable entity keeps the alarm off. */
  lemma AnomalyNeedsAllReadings(current: Option<EntityState>, mean: Option<EntityState>, threshold: Option<EntityState>)
    requires AnomalyOn(current, mean, threshold)
    ensures current.Some? && mean.Some? && threshold.Some?
    ensures !Unusable(current.value.state) && !Unusable(mean.value.state) && !Unusable(threshold.value.state)
    ensures ValueSafely(mean, 0.0) > 0.0
  {
    PlaceholdersDoNotParse();
  }

  /**
   * Each zone attribute carries the value of the last of the zone's keys
   * with that name: the `val` of a dictionary, the value itself otherwise.
   */
  lemma ZoneAttributeValue(data: Json, zone: nat, fields: seq<(string, Json)>, i: nat)
    requires Resolve(data, "weathercomp") == JObj(fields)
    requires i < |fields| && ZoneKey(fields[i].0, zone)
    requires forall j :: i < j < |fields| && ZoneKey(fields[j].0, zone) ==> AttributeName(fields[j].0, zone) != AttributeName(fields[i].0, zone)
    ensures fields[i].1.JObj? ==> Lookup(ZoneAttributes(data, zone), AttributeName(fields[i].0, zone)) == Some(Get(fields[i].1.fields, "val"))
    ensures !fields[i].1.JObj? ==> Lookup(ZoneAttributes(data, zone), AttributeName(fields[i].0, zone)) == Some(fields[i].1)
  {
    ZoneFoldLastKeyWins(fields, zone, [], i);
  }

  /** The translation table's names are distinct. */
  lemma TranslationsUnique()
    ensures UniqueKeys(WeatherZoneTranslations)
  {
  }

  /**
   * Every name of the translation table is translated, whether the zone
   * prefix precedes it with a dash (`zone2-valve`) or without
   * (`zone2valve`).
   */
  lemma KnownZoneKeysTranslate(zone: nat, i: nat)
    requires i < |WeatherZoneTranslations|
    ensures AttributeName(ZonePrefix(zone) + "-" + WeatherZoneTranslations[i].0, zone) == WeatherZoneTranslations[i].1
    ensures AttributeName(ZonePrefix(zone) + WeatherZoneTranslations[i].0, zone) == WeatherZoneTranslations[i].1
  {
    var bare := WeatherZoneTranslations[i].0;
    TranslationLookup(i);
    TranslatedNamesArePlain(i);
    ZonePrefixOpensWithZ(zone);
    DashedKeyIsBare(ZonePrefix(zone), bare);
    PlainKeyIsBare(zone, bare);
  }

  /** Looking up a name of the translation table finds its own translation. */
  lemma TranslationLookup(i: nat)
    requires i < |WeatherZoneTranslations|
    ensures Lookup(WeatherZoneTranslations, WeatherZoneTranslations[i].0) == Some(WeatherZoneTranslations[i].1)
  {
    TranslationsUnique();
  }

  /** A name with no 'z' in it: none of the zone prefixes occurs in it. */
  predicate PlainName(bare: string) {
    |bare| > 0 && bare[0] != '-' && forall j :: 0 <= j < |bare| ==> bare[j] != 'z'
  }

  lemma TranslatedNamesArePlain(i: nat)
    requires i < |WeatherZoneTranslations|
    ensures PlainName(WeatherZoneTranslations[i].0)
  {
  }

  lemma ZonePrefixOpensWithZ(zone: nat)
    ensures |ZonePrefix(zone)| > 0 && ZonePrefix(zone)[0] == 'z'
  {
  }

  /** With the dash, the whole prefix goes in the first replacement and the second finds nothing. */
  lemma DashedKeyIsBare(p: string, bare: string)
    requires |p| > 0 && p[0] == 'z' && PlainName(bare)
    ensures ReplaceAll(ReplaceAll(p + "-" + bare, p + "-", ""), p, "") == bare
  {
    var pattern := p + "-";
    assert pattern[0] == 'z';
    FirstCharAbsentNotContained(bare, pattern);
    FirstCharAbsentNotContained(bare, p);
    ReplaceAllLeading(pattern, bare, "");
    assert ReplaceAll(p + "-" + bare, pattern, "") == "" + bare == bare;
  }

  /** Without the dash, the first replacement finds nothing (the only 'z' opens the key) and the second takes the prefix. */
  lemma PlainKeyIsBare(zone: nat, bare: string)
    requires PlainName(bare)
    ensures ReplaceAll(ReplaceAll(ZonePrefix(zone) + bare, ZonePrefix(zone) + "-", ""), ZonePrefix(zone), "") == bare
  {
    var p := ZonePrefix(zone);
    var key := p + bare;
    var digits := NatToString(zone);
    assert key[1..] == "one" + digits + bare;
    forall j | 0 <= j < |key[1..]|
      ensures key[1..][j] != (p + "-")[0]
    {
      if 3 <= j < 3 + |digits| {
        assert key[1..][j] == digits[j - 3];
      } else if j >= 3 + |digits| {
        assert key[1..][j] == bare[j - 3 - |digits|];
      }
    }
    FirstCharAbsentNotContained(key[1..], p + "-");
    assert key[|p|] == bare[0];
    assert !StartsWith(key, p + "-");
    assert !Contains(key, p + "-");
    FirstCharAbsentNotContained(bare, p);
    ReplaceAllLeading(p, bare, "");
  }
}
