/**
 * Decoded JSON values as the Python code sees them after `json.loads`, with
 * the few Python built-ins the integration applies to them: truthiness,
 * `dict.get` and `str()`.
 */
module Json {
  import opened Wrappers

  /**
   * A decoded JSON value. Integer literals decode to `int`, other numbers to
   * `float`; a float carries the text Python's `repr` gives for it, which is
   * what `str()` prints. An object is the list of its entries in order, one
   * per key, as `json.loads` builds a `dict`.
   */
  datatype Json =
    | JNull
    | JBool(b: bool)
    | JInt(i: int)
    | JFloat(x: real, repr: string)
    | JString(s: string)
    | JArray(items: seq<Json>)
    | JObject(entries: seq<(string, Json)>)

  /** `key in d` followed by `d[key]`: the value of the first entry named `key`. */
  function Lookup(entries: seq<(string, Json)>, key: string): Option<Json>
  {
    if |entries| == 0 then None
    else if entries[0].0 == key then Some(entries[0].1)
    else Lookup(entries[1..], key)
  }

  /** The value of an entry no earlier entry shadows is what the lookup returns. */
  lemma {:induction false} LookupAt(entries: seq<(string, Json)>, k: nat)
    requires k < |entries|
    requires forall k' :: 0 <= k' < k ==> entries[k'].0 != entries[k].0
    ensures Lookup(entries, entries[k].0) == Some(entries[k].1)
  {
    if k > 0 {
      LookupAt(entries[1..], k - 1);
    }
  }

  /** `d.get(key, default)`. */
  function GetOr(entries: seq<(string, Json)>, key: string, default: Json): Json
  {
    match Lookup(entries, key)
    case Some(v) => v
    case None => default
  }

  /** `d.get(key)`: a missing key reads as `None`. */
  function Get(entries: seq<(string, Json)>, key: string): Json
  {
    GetOr(entries, key, JNull)
  }

  /** Python truthiness of a decoded value. */
  predicate Truthy(v: Json)
  {
    match v
    case JNull => false
    case JBool(b) => b
    case JInt(i) => i != 0
    case JFloat(x, _) => x != 0.0
    case JString(s) => s != ""
    case JArray(items) => items != []
    case JObject(entries) => entries != []
  }

  /** `isinstance(v, (int, float))`; a bool is an int in Python, so it passes. */
  predicate IsNumber(v: Json)
  {
    v.JInt? || v.JFloat? || v.JBool?
  }

  /** The decimal digits of `n`, as `str(n)` prints them. */
  function NatToString(n: nat): (r: string)
    ensures |r| > 0
    ensures forall k :: 0 <= k < |r| ==> '0' <= r[k] <= '9'
  {
    if n < 10 then [DigitChar(n)] else NatToString(n / 10) + [DigitChar(n % 10)]
  }

  function DigitChar(d: nat): (c: char)
    requires d < 10
    ensures '0' <= c <= '9'
  {
    "0123456789"[d]
  }

  /** `str(i)` for a Python int. */
  function IntToString(i: int): (r: string)
    ensures |r| > 0
    ensures (r[0] == '-') <==> i < 0
  {
    if i < 0 then "-" + NatToString(-i) else NatToString(i)
  }

  /**
   * `str(v)`: a string is itself; every other value prints as its `repr`.
   */
  function Str(v: Json): string
  {
    if v.JString? then v.s else Repr(v)
  }

  /**
   * `repr(v)` of the decoded value. Strings inside a container are quoted
   * with single quotes and no escaping.
   */
  function Repr(v: Json): string
    decreases v, 1
  {
    match v
    case JNull => "None"
    case JBool(b) => if b then "True" else "False"
    case JInt(i) => IntToString(i)
    case JFloat(_, repr) => repr
    case JString(s) => "'" + s + "'"
    case JArray(items) => "[" + ReprItems(v, items) + "]"
    case JObject(entries) => "{" + ReprEntries(v, entries) + "}"
  }

  function ReprItems(parent: Json, items: seq<Json>): string
    requires forall k :: 0 <= k < |items| ==> items[k] < parent
    decreases parent, 0, |items|
  {
    if |items| == 0 then ""
    else if |items| == 1 then Repr(items[0])
    else Repr(items[0]) + ", " + ReprItems(parent, items[1..])
  }

  function ReprEntries(parent: Json, entries: seq<(string, Json)>): string
    requires forall k :: 0 <= k < |entries| ==> entries[k].1 < parent
    decreases parent, 0, |entries|
  {
    if |entries| == 0 then ""
    else
      var head := "'" + entries[0].0 + "': " + Repr(entries[0].1);
      if |entries| == 1 then head else head + ", " + ReprEntries(parent, entries[1..])
  }
}
