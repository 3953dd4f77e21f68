/**
 * What every NBE entity reads: the coordinator payload, walked along a
 * dotted path, and the states of other host entities, read as numbers with
 * a fallback. Both versions of the integration share these readers; the
 * coordinator payload is `JNull` when the coordinator has no data yet.
 */
module Entity {
  import opened Wrappers
  import opened Text
  import opened Json

  /** A host entity as seen through `hass.states.get`: its state text and attributes. */
  datatype EntityState = EntityState(state: string, attributes: seq<(string, Json)>)

  /** A counter reading together with the time (in seconds) it was taken. */
  datatype Sample = Sample(value: real, time: real)

  /** The host's placeholder states for an entity without a value. */
  predicate Unusable(s: string) {
    s == "unknown" || s == "unavailable"
  }

  /** `state and state.state == text`: the entity exists and is in exactly that state. */
  predicate InState(e: Option<EntityState>, text: string) {
    e.Some? && e.value.state == text
  }

  // ---------------------------------------------------------------------
  // Dotted-path lookups in the coordinator payload

  /**
   * Follows `keys` through nested dictionaries. `None` when a value that is
   * not a dictionary is met before the keys run out; a missing key yields
   * `JNull` (Python's `dict.get`), which stops the walk at the next key.
   */
  function Walk(val: Json, keys: seq<string>): (r: Option<Json>)
    ensures |keys| == 0 ==> r == Some(val)
    ensures |keys| > 0 && !val.JObj? ==> r.None?
    decreases |keys|
  {
    if |keys| == 0 then Some(val)
    else if !val.JObj? then None
    else Walk(Get(val.fields, keys[0]), keys[1..])
  }

  /** Walking one key further steps into the value found, when that value is a dictionary. */
  lemma {:induction false} WalkOneFurther(val: Json, keys: seq<string>, k: string)
    ensures Walk(val, keys + [k]) ==
      (if Walk(val, keys).Some? && Walk(val, keys).value.JObj? then Some(Get(Walk(val, keys).value.fields, k)) else None)
    decreases |keys|
  {
    if |keys| > 0 && val.JObj? {
      assert (keys + [k])[0] == keys[0];
      assert (keys + [k])[1..] == keys[1..] + [k];
      WalkOneFurther(Get(val.fields, keys[0]), keys[1..], k);
    } else if |keys| == 0 {
      assert keys + [k] == [k];
    }
  }

  /**
   * `_get_api_data(path, default)`: the value at the dotted `path`, or
   * `default` when the payload is empty, the walk meets a non-dictionary or
   * the value found is `None`.
   */
  function ApiData(data: Json, path: string, default: Json): (r: Json)
    ensures !Truthy(data) ==> r == default
    ensures r != default ==> r != JNull && Walk(data, Split(path, '.')) == Some(r)
    ensures Truthy(data) ==> (Walk(data, Split(path, '.')).None? ==> r == default)
    ensures forall v :: Truthy(data) && Walk(data, Split(path, '.')) == Some(v) && v != JNull ==> r == v
  {
    if !Truthy(data) then default
    else match Walk(data, Split(path, '.'))
      case None => default
      case Some(v) => if v.JNull? then default else v
  }

  /**
   * `_resolve_path(path)` of the sensors and binary sensors: the value at the
   * dotted path, `None` (here `JNull`) when the walk fails.
   */
  function ResolvePath(data: Json, path: string): (r: Json)
    ensures r == ApiData(data, path, JNull)
  {
    if !Truthy(data) then JNull
    else match Walk(data, Split(path, '.'))
      case None => JNull
      case Some(v) => v
  }

  // ---------------------------------------------------------------------
  // Reading other entities' states

  /**
   * `_get_value_safely(entity_id, default)`: the entity's state as a number;
   * the default for a missing entity, a placeholder state or a state that
   * does not parse. Never raises.
   */
  function ValueSafely(e: Option<EntityState>, default: real): (r: real)
    ensures e.None? ==> r == default
    ensures e.Some? && Unusable(e.value.state) ==> r == default
    ensures e.Some? && !Unusable(e.value.state) ==>
      r == (match ParseDecimal(e.value.state) case Some(v) => v case None => default)
  {
    if e.Some? && !Unusable(e.value.state) then
      match ParseDecimal(e.value.state)
      case Some(v) => v
      case None => default
    else default
  }

  /**
   * The inline form `float(s.state) if s and s.state not in ("unknown",
   * "unavailable") else default`: like `ValueSafely`, except that a state
   * that does not parse raises `ValueError`.
   */
  function StateOrDefault(e: Option<EntityState>, default: real): (r: Result<real, Fault>)
    ensures r.Failure? <==> e.Some? && !Unusable(e.value.state) && ParseDecimal(e.value.state).None?
    ensures r.Failure? ==> r.error == ValueError
    ensures r.Success? ==> r.value == ValueSafely(e, default)
  {
    if e.Some? && !Unusable(e.value.state) then FloatOfString(e.value.state)
    else Success(default)
  }

  // ---------------------------------------------------------------------
  // Dictionary access on payload values

  /** `data or {}`. */
  function OrEmpty(data: Json): (r: Json)
    ensures Truthy(data) ==> r == data
    ensures !Truthy(data) ==> r == JObj([])
  {
    if Truthy(data) then data else JObj([])
  }

  /** `obj.get(key, default)`: raises `AttributeError` on a value that is not a dictionary. */
  function DictGet(obj: Json, key: string, default: Json): (r: Result<Json, Fault>)
    ensures r.Failure? <==> !obj.JObj?
    ensures r.Failure? ==> r.error == AttributeError
    ensures obj.JObj? && Lookup(obj.fields, key).None? ==> r == Success(default)
  {
    if obj.JObj? then Success(GetOr(obj.fields, key, default)) else Failure(AttributeError)
  }

  /** `float((data or {}).get(outer, {}).get(inner, default))`. */
  function NestedFloat(data: Json, outer: string, inner: string, default: Json): (r: Result<real, Fault>)
    ensures !Truthy(data) && default.JFloat? ==> r == Success(default.v)
  {
    var section :- DictGet(OrEmpty(data), outer, JObj([]));
    var value :- DictGet(section, inner, default);
    FloatOf(value)
  }

  /** `(data or {}).get("weatherdata", {})`. */
  function WeatherData(data: Json): (r: Result<Json, Fault>)
    ensures r.Failure? <==> Truthy(data) && !data.JObj?
    ensures !Truthy(data) ==> r == Success(JObj([]))
  {
    DictGet(OrEmpty(data), "weatherdata", JObj([]))
  }

  /**
   * `float(str(wd.get(key, 0)).replace(",", "."))`: one weather reading
   * ("1" is the outdoor temperature, "2" the wind speed). `AttributeError`
   * when the weather section is not a dictionary, `ValueError` when the
   * value is not a number.
   */
  function WeatherReading(wd: Json, key: string): (r: Result<real, Fault>)
    ensures wd.JObj? && Lookup(wd.fields, key).None? ==> r == Success(0.0)
    ensures !wd.JObj? ==> r == Failure(AttributeError)
    ensures r.Failure? ==> r.error == AttributeError || r.error == ValueError
  {
    var value :- DictGet(wd, key, JInt(0));
    FloatOfText(value)
  }

  /**
   * The outdoor temperature as the tolerant readers take it: a failed
   * reading of any kind counts as 0 °C.
   */
  function OutdoorTemperature(wd: Json): real {
    WeatherReading(wd, "1").GetOr(0.0)
  }

  // ---------------------------------------------------------------------
  // Properties

  /** A dotted path of two keys reads the second key inside the first. */
  lemma ApiDataTwoKeys(fields: seq<(string, Json)>, outer: string, inner: string, default: Json)
    requires '.' !in outer && '.' !in inner
    requires |fields| > 0
    ensures ApiData(JObj(fields), outer + "." + inner, default) ==
      (match Get(fields, outer)
       case JObj(sub) => (if Get(sub, inner).JNull? then default else Get(sub, inner))
       case _ => default)
  {
    SplitCons(outer, inner, '.');
    SplitNoSeparator(inner, '.');
    assert Split(outer + "." + inner, '.') == [outer, inner];
    var keys := [outer, inner];
    assert keys[1..] == [inner];
    assert Walk(JObj(fields), keys) == Walk(Get(fields, outer), [inner]);
    match Get(fields, outer)
    case JObj(sub) =>
      assert [inner][1..] == [];
      assert Walk(Get(fields, outer), [inner]) == Some(Get(sub, inner));
    case _ =>
  }

  /** A number written into an entity's state reads back as that number. */
  lemma ValueSafelyReadsRenderedInteger(i: int, attributes: seq<(string, Json)>, default: real)
    ensures ValueSafely(Some(EntityState(IntToString(i), attributes)), default) == i as real
  {
    DecimalRoundTrip(i);
    var s := IntToString(i);
    assert s[0] == '-' || IsDigit(s[0]);
  }
}
