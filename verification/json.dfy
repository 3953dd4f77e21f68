/**
 * Decoded JSON as the integration sees it: the coordinator's payload and
 * entity attributes. Objects are kept as insertion-ordered key/value lists,
 * which is what a Python `dict` is; that fixes the iteration order used by
 * the loops that build new dictionaries. The Python built-ins applied to
 * such values (`bool()`, `str()`, `float()`, `int()`, `dict.get`, item
 * assignment) are defined here, with raised exceptions made explicit.
 */
module Json {
  import opened Wrappers
  import opened Text

  /**
   * A decoded value. A float carries the text Python prints for it (`repr`),
   * so that `str()` is defined on every value without a float printer.
   */
  datatype Json =
    | JNull
    | JBool(b: bool)
    | JInt(i: int)
    | JFloat(v: real, repr: string)
    | JStr(s: string)
    | JList(items: seq<Json>)
    | JObj(fields: seq<(string, Json)>)

  /** The Python exception classes the modelled code raises or catches. */
  datatype Fault =
    | ValueError
    | TypeError
    | AttributeError
    | KeyError
    | IndexError
    | NameError
    | ZeroDivisionError

  // ---------------------------------------------------------------------
  // Dictionaries as insertion-ordered association lists

  /** `d.get(k)`: the value stored under `k`, if any. */
  function Lookup<V>(d: seq<(string, V)>, k: string): (r: Option<V>)
    ensures r.None? <==> forall i :: 0 <= i < |d| ==> d[i].0 != k
    ensures r.Some? ==> exists i :: 0 <= i < |d| && d[i].0 == k && d[i].1 == r.value
  {
    if |d| == 0 then None
    else if d[0].0 == k then Some(d[0].1)
    else
      var r := Lookup(d[1..], k);
      assert r.Some? ==> exists i :: 0 <= i < |d[1..]| && d[1..][i].0 == k && d[1..][i].1 == r.value;
      r
  }

  predicate UniqueKeys<V>(d: seq<(string, V)>) {
    forall i, j :: 0 <= i < j < |d| ==> d[i].0 != d[j].0
  }

  /**
   * `d[k] = v`: an existing key keeps its position and takes the new value,
   * a new key is appended.
   */
  function Store<V>(d: seq<(string, V)>, k: string, v: V): (r: seq<(string, V)>)
    ensures Lookup(r, k) == Some(v)
    ensures forall k' :: k' != k ==> Lookup(r, k') == Lookup(d, k')
    ensures UniqueKeys(d) ==> UniqueKeys(r)
  {
    if |d| == 0 then [(k, v)]
    else if d[0].0 == k then [(k, v)] + d[1..]
    else
      var rest := Store(d[1..], k, v);
      var r := [d[0]] + rest;
      assert forall k' :: k' != k ==> Lookup(r, k') == Lookup(d, k') by {
        forall k' | k' != k
          ensures Lookup(r, k') == Lookup(d, k')
        {
          if d[0].0 != k' {
            assert r[1..] == rest;
          }
        }
      }
      assert UniqueKeys(d) ==> UniqueKeys(r) by {
        if UniqueKeys(d) {
          assert UniqueKeys(d[1..]);
          assert Lookup(d[1..], d[0].0).None?;
          assert Lookup(rest, d[0].0).None?;
        }
      }
      r
  }

  /** `d.update(e)`: the entries of `e` stored one after the other. */
  function UpdateWith<V>(d: seq<(string, V)>, e: seq<(string, V)>): (r: seq<(string, V)>)
    ensures forall k :: Lookup(e, k).None? ==> Lookup(r, k) == Lookup(d, k)
    ensures UniqueKeys(d) ==> UniqueKeys(r)
    decreases |e|
  {
    if |e| == 0 then d else UpdateWith(Store(d, e[0].0, e[0].1), e[1..])
  }

  // ---------------------------------------------------------------------
  // Python built-ins on decoded values

  /** `bool(j)`: `None`, `False`, zero and empty containers are false. */
  predicate Truthy(j: Json) {
    match j
    case JNull => false
    case JBool(b) => b
    case JInt(i) => i != 0
    case JFloat(v, _) => v != 0.0
    case JStr(s) => |s| > 0
    case JList(items) => |items| > 0
    case JObj(fields) => |fields| > 0
  }

  /** `j.get(k)` on a dictionary: `None` when the key is absent. */
  function Get(fields: seq<(string, Json)>, k: string): Json {
    Lookup(fields, k).GetOr(JNull)
  }

  /** `j.get(k, default)` on a dictionary. */
  function GetOr(fields: seq<(string, Json)>, k: string, default: Json): Json {
    Lookup(fields, k).GetOr(default)
  }

  /** `str(j)`. Texts inside containers are quoted as `repr` does. */
  function Str(j: Json): string
    decreases j, 1
  {
    match j
    case JNull => "None"
    case JBool(b) => if b then "True" else "False"
    case JInt(i) => IntToString(i)
    case JFloat(_, r) => r
    case JStr(s) => s
    case JList(items) => "[" + ReprItems(j, 0) + "]"
    case JObj(fields) => "{" + ReprFields(j, 0) + "}"
  }

  /** `repr(j)`: like `str`, except that a text is quoted. */
  function Repr(j: Json): string
    decreases j, 2
  {
    if j.JStr? then Quote(j.s) else Str(j)
  }

  function ReprItems(j: Json, from: nat): string
    requires j.JList?
    decreases j, 0, |j.items| - from
  {
    if from >= |j.items| then ""
    else
      (if from > 0 then ", " else "") + Repr(j.items[from]) + ReprItems(j, from + 1)
  }

  function ReprFields(j: Json, from: nat): string
    requires j.JObj?
    decreases j, 0, |j.fields| - from
  {
    if from >= |j.fields| then ""
    else
      var entry := j.fields[from];
      assert entry.1 < j by {
        assert entry in j.fields;
      }
      (if from > 0 then ", " else "") + Quote(entry.0) + ": " + Repr(entry.1) + ReprFields(j, from + 1)
  }

  /**
   * The quoted form of a text: single quotes unless the text contains a
   * single quote and no double quote; backslash, the chosen quote and the
   * three common control characters are escaped.
   */
  function Quote(s: string): string {
    var q := if '\'' in s && '"' !in s then '"' else '\'';
    [q] + Escape(s, q) + [q]
  }

  function Escape(s: string, q: char): string {
    if |s| == 0 then ""
    else
      var c := s[0];
      var e :=
        if c == '\\' then "\\\\"
        else if c == q then ['\\', q]
        else if c == '\n' then "\\n"
        else if c == '\r' then "\\r"
        else if c == '\t' then "\\t"
        else [c];
      e + Escape(s[1..], q)
  }

  /** `float(j)`. */
  function FloatOf(j: Json): (r: Result<real, Fault>)
    ensures j.JNull? ==> r == Failure(TypeError)
  {
    match j
    case JInt(i) => Success(i as real)
    case JFloat(v, _) => Success(v)
    case JBool(b) => Success(if b then 1.0 else 0.0)
    case JStr(s) =>
      (match ParseDecimal(s)
       case Some(v) => Success(v)
       case None => Failure(ValueError))
    case _ => Failure(TypeError)
  }

  /** `float(text)` for a text: the number, or `ValueError`. */
  function FloatOfString(s: string): (r: Result<real, Fault>)
    ensures r.Failure? ==> r.error == ValueError
  {
    match ParseDecimal(s)
    case Some(v) => Success(v)
    case None => Failure(ValueError)
  }

  /**
   * `float(str(j).replace(",", "."))`, the integration's lenient reading of
   * payload numbers that may use a decimal comma.
   */
  function FloatOfText(j: Json): (r: Result<real, Fault>)
    ensures r.Failure? ==> r.error == ValueError
    ensures j.JInt? ==> r == Success(j.i as real)
    ensures j.JFloat? ==> r == Success(j.v)
  {
    match j
    case JInt(i) => Success(i as real)
    case JFloat(v, _) => Success(v)
    case JStr(s) => FloatOfString(ReplaceAll(s, ",", "."))
    case _ => Failure(ValueError)
  }

  /** `int(j)`: texts must be integers, floats are truncated toward zero. */
  function IntOf(j: Json): Result<int, Fault> {
    match j
    case JInt(i) => Success(i)
    case JFloat(v, _) => Success(if v >= 0.0 then v.Floor else -((-v).Floor))
    case JBool(b) => Success(if b then 1 else 0)
    case JStr(s) =>
      (match ParseInt(s)
       case Some(i) => Success(i)
       case None => Failure(ValueError))
    case _ => Failure(TypeError)
  }

  /** `float(str(j).replace(",", "."))` agrees with `float(str(j))` on every integer value. */
  lemma FloatOfTextOfIntString(i: int)
    ensures FloatOfText(JStr(IntToString(i))) == Success(i as real)
  {
    var s := IntToString(i);
    assert !Contains(s, ",") by {
      assert ',' !in s;
      NoCharNoContains(s, ',');
    }
    DecimalRoundTrip(i);
  }

  lemma {:induction false} NoCharNoContains(s: string, c: char)
    requires c !in s
    ensures !Contains(s, [c])
    decreases |s|
  {
    if |s| > 0 {
      NoCharNoContains(s[1..], c);
      assert !StartsWith(s, [c]) by {
        assert s[0] != c;
      }
    }
  }
}
