/**
 * `StokerSensor`, the generic payload sensor: it reads the value at its
 * dotted path (the first element when that value is a list) and shows it
 * in one of three ways, chosen by the end of its unique id:
 *
 * - the boiler status: the controller's state code, without its `lng_`
 *   prefix, translated through the state table ("Nieznany" when missing);
 * - the boiler info: "OK" for no message, else the message number
 *   translated through the info table;
 * - anything else: the value as a number when it is one (a decimal comma
 *   is accepted), else the value itself.
 *
 * The two translation tables are parameters: their texts are presentation.
 */
module StatusSensor {
  import opened Wrappers
  import opened Text
  import opened Json
  import opened Entity

  /** What the sensor shows. */
  datatype Shown =
    | Nothing
    | Text(text: string)
    | Number(v: real)
    | Code(code: int)
    | Raw(value: Json)

  /** The state text shown when the status is missing. */
  const UnknownState: string := "Nieznany"

  /** The info text shown when there is no message. */
  const NoMessage: string := "OK"

  /** `dict.get` on an integer-keyed table. */
  function CodeLookup(table: seq<(int, string)>, code: int): (r: Option<string>)
    ensures r.Some? ==> exists i :: 0 <= i < |table| && table[i] == (code, r.value)
    ensures r.None? <==> forall i :: 0 <= i < |table| ==> table[i].0 != code
  {
    if |table| == 0 then None
    else if table[0].0 == code then Some(table[0].1)
    else
      var r := CodeLookup(table[1..], code);
      assert r.Some? ==> exists i :: 0 <= i < |table[1..]| && table[1..][i] == (code, r.value);
      r
  }

  /** The value at the path; a list stands for its first element (`None` when empty). */
  function Reading(data: Json, path: string): (r: Json)
    ensures !ResolvePath(data, path).JList? ==> r == ResolvePath(data, path)
    ensures ResolvePath(data, path).JList? && |ResolvePath(data, path).items| > 0 ==> r == ResolvePath(data, path).items[0]
    ensures ResolvePath(data, path) == JList([]) ==> r == JNull
  {
    match ResolvePath(data, path)
    case JList(items) => if |items| > 0 then items[0] else JNull
    case v => v
  }

  /** The status code with its `lng_` prefixes removed, translated when the table knows it. */
  function Status(states: seq<(string, string)>, v: Json): (r: string)
    ensures v == JNull ==> r == UnknownState
    ensures v != JNull ==> r == Lookup(states, ReplaceAll(Str(v), "lng_", "")).GetOr(ReplaceAll(Str(v), "lng_", ""))
  {
    if v.JNull? then UnknownState
    else
      var raw := ReplaceAll(Str(v), "lng_", "");
      Lookup(states, raw).GetOr(raw)
  }

  /** `val is None or val == "" or val == "0" or val == 0`: no message. */
  predicate NoInfo(v: Json) {
    v == JNull || v == JStr("") || v == JStr("0") || v == JInt(0) || (v.JFloat? && v.v == 0.0) || v == JBool(false)
  }

  /**
   * The info: "OK" for no message; otherwise `int(val)` translated when
   * the table knows it and the number itself when not; `str(val)` when
   * `int(val)` raises.
   */
  function Info(info: seq<(int, string)>, v: Json): (r: Shown)
    ensures NoInfo(v) ==> r == Text(NoMessage)
    ensures !NoInfo(v) && IntOf(v).Failure? ==> r == Text(Str(v))
    ensures !NoInfo(v) && IntOf(v).Success? && CodeLookup(info, IntOf(v).value).Some? ==>
      r == Text(CodeLookup(info, IntOf(v).value).value)
    ensures !NoInfo(v) && IntOf(v).Success? && CodeLookup(info, IntOf(v).value).None? ==> r == Code(IntOf(v).value)
  {
    if NoInfo(v) then Text(NoMessage)
    else match IntOf(v)
      case Failure(_) => Text(Str(v))
      case Success(code) =>
        match CodeLookup(info, code)
        case Some(text) => Text(text)
        case None => Code(code)
  }

  /**
   * Any other reading: a number when `float()` accepts it (a text first
   * has its decimal commas turned into points), else the reading itself,
   * with the commas already replaced in a text.
   */
  function Measurement(v: Json): (r: Shown)
    ensures v == JNull ==> r == Nothing
    ensures v.JInt? ==> r == Number(v.i as real)
    ensures v.JFloat? ==> r == Number(v.v)
    ensures v.JStr? && FloatOfString(ReplaceAll(v.s, ",", ".")).Success? ==>
      r == Number(FloatOfString(ReplaceAll(v.s, ",", ".")).value)
    ensures v.JStr? && FloatOfString(ReplaceAll(v.s, ",", ".")).Failure? ==> r == Raw(JStr(ReplaceAll(v.s, ",", ".")))
    ensures v.JList? || v.JObj? ==> r == Raw(v)
  {
    match v
    case JNull => Nothing
    case JStr(s) =>
      var replaced := ReplaceAll(s, ",", ".");
      (match FloatOfString(replaced)
       case Success(x) => Number(x)
       case Failure(_) => Raw(JStr(replaced)))
    case _ =>
      match FloatOf(v)
      case Success(x) => Number(x)
      case Failure(_) => Raw(v)
  }

  /** `StokerSensor.native_value` for the sensor with this unique id and path. */
  function NativeValue(uniqueId: string, path: string, states: seq<(string, string)>, info: seq<(int, string)>,
                       data: Json): (r: Shown)
    ensures EndsWith(uniqueId, "boiler_status") ==> r == Text(Status(states, Reading(data, path)))
    ensures !EndsWith(uniqueId, "boiler_status") && EndsWith(uniqueId, "boiler_info") ==> r == Info(info, Reading(data, path))
    ensures !EndsWith(uniqueId, "boiler_status") && !EndsWith(uniqueId, "boiler_info") ==> r == Measurement(Reading(data, path))
    ensures !Truthy(data) && !EndsWith(uniqueId, "boiler_status") && !EndsWith(uniqueId, "boiler_info") ==> r == Nothing
  {
    var v := Reading(data, path);
    if EndsWith(uniqueId, "boiler_status") then Text(Status(states, v))
    else if EndsWith(uniqueId, "boiler_info") then Info(info, v)
    else Measurement(v)
  }

  // ---------------------------------------------------------------------
  // Properties

  /** A language-tagged state code reads like the bare code. */
  lemma StatusIgnoresLanguagePrefix(states: seq<(string, string)>, code: string)
    requires !Contains(code, "lng_")
    ensures Status(states, JStr("lng_" + code)) == Status(states, JStr(code))
    ensures Status(states, JStr(code)) == Lookup(states, code).GetOr(code)
  {
    var s := "lng_" + code;
    assert s[..4] == "lng_";
    assert s[4..] == code;
    assert Str(JStr(s)) == s && Str(JStr(code)) == code;
    assert ReplaceAll(code, "lng_", "") == code;
    assert ReplaceAll(s, "lng_", "") == "" + ReplaceAll(code, "lng_", "");
    assert ReplaceAll(s, "lng_", "") == code;
  }

  /** A message number sent as text is translated like the number itself. */
  lemma InfoReadsNumberText(info: seq<(int, string)>, code: int)
    requires code != 0
    ensures Info(info, JStr(IntToString(code))) == Info(info, JInt(code))
  {
    IntRoundTrip(code);
    var s := IntToString(code);
    assert s != "0" && s != "";
  }

  /** An integer written as text is shown as that number. */
  lemma MeasurementReadsIntegerText(i: int)
    ensures Measurement(JStr(IntToString(i))) == Number(i as real)
  {
    FloatOfTextOfIntString(i);
  }
}
