/**
 * The parsed JSON that the model gateway hands back, and the conversions the
 * typed responses apply to its values.
 */
module JsonValues {
  import opened Wrappers

  /**
   * A value as Python's `json.loads` produces it. Numbers are kept as exact
   * reals; `JNonFinite` stands for `NaN`, `Infinity` and `-Infinity`, which
   * Python's parser accepts as well.
   */
  datatype Json =
    | JNull
    | JBool(b: bool)
    | JNumber(x: real)
    | JNonFinite
    | JString(s: string)
    | JArray(items: seq<Json>)
    | JObject(fields: map<string, Json>)

  /** Python's `data.get(key, default)` on a parsed object. */
  function Get(data: map<string, Json>, key: string, default: Json): Json {
    if key in data then data[key] else default
  }

  /** The JSON list whose items are the given strings, in order. */
  function JStrings(xs: seq<string>): (r: seq<Json>)
    ensures |r| == |xs|
    ensures forall i :: 0 <= i < |xs| ==> r[i] == JString(xs[i])
  {
    seq(|xs|, i requires 0 <= i < |xs| => JString(xs[i]))
  }

  /**
   * The strings held by a list of JSON values, when every item is a string:
   * what a `List[str]` field of a response model accepts.
   */
  function StringsOf(items: seq<Json>): (r: Option<seq<string>>)
    ensures r.Some? ==> items == JStrings(r.value)
    ensures r.None? ==> exists i :: 0 <= i < |items| && !items[i].JString?
  {
    if |items| == 0 then Some([])
    else if !items[0].JString? then None
    else match StringsOf(items[1..])
      case None => None
      case Some(rest) => Some([items[0].s] + rest)
  }

  /** A JSON value accepted by a `List[str]` field. */
  function StringList(v: Json): Option<seq<string>> {
    if v.JArray? then StringsOf(v.items) else None
  }

  /** A JSON value accepted by a `str` field. */
  function Str(v: Json): Option<string> {
    if v.JString? then Some(v.s) else None
  }

  /** A JSON value accepted by an `Optional[str]` field: `null` reads as no value. */
  function OptionalStr(v: Json): Option<Option<string>> {
    match v
    case JNull => Some(None)
    case JString(s) => Some(Some(s))
    case _ => None
  }

  /**
   * Reading a list of strings back from its JSON form gives the same strings
   * in the same order, and only that JSON form reads as those strings.
   */
  lemma {:induction false} StringListRoundTrip(v: Json, xs: seq<string>)
    ensures StringList(v) == Some(xs) <==> v == JArray(JStrings(xs))
  {
    if v == JArray(JStrings(xs)) {
      StringsOfJStrings(xs);
    }
  }

  lemma {:induction false} StringsOfJStrings(xs: seq<string>)
    ensures StringsOf(JStrings(xs)) == Some(xs)
  {
    if |xs| > 0 {
      assert JStrings(xs)[1..] == JStrings(xs[1..]);
      StringsOfJStrings(xs[1..]);
      assert [xs[0]] + xs[1..] == xs;
    }
  }
}
