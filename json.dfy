/** Decoded JSON values as the bot sees them after `requests.Response.json()`,
    with the few Python built-in behaviours the bot depends on: `type(x)`,
    truthiness, `key in dict`, `dict[key]`, hashability and `str(x)`. */
module PyJson {
  import opened Wrappers
  import opened Text

  /** A JSON object keeps its keys in insertion order, like a Python dict;
      the keys of a decoded object are distinct. */
  datatype Json =
    | JNull
    | JBool(b: bool)
    | JInt(i: int)
    | JString(s: string)
    | JList(items: seq<Json>)
    | JObject(fields: seq<(string, Json)>)

  /** The Python classes a decoded JSON value can have. */
  datatype PyType = Dict | List | Str | Int | Bool | NoneType
  {
    function Name(): string
    {
      match this
      case Dict => "dict"
      case List => "list"
      case Str => "str"
      case Int => "int"
      case Bool => "bool"
      case NoneType => "NoneType"
    }

    /** `str(cls)`, e.g. `<class 'dict'>`. */
    function Text(): (s: string)
      ensures |s| > 8 && s[8] == Name()[0]
    {
      "<class '" + Name() + "'>"
    }
  }

  /** `type(j)`. */
  function TypeOf(j: Json): PyType
  {
    match j
    case JNull => NoneType
    case JBool(_) => Bool
    case JInt(_) => Int
    case JString(_) => Str
    case JList(_) => List
    case JObject(_) => Dict
  }

  /** `bool(j)`: None, False, 0 and empty containers are falsy. */
  predicate Truthy(j: Json)
  {
    match j
    case JNull => false
    case JBool(b) => b
    case JInt(i) => i != 0
    case JString(s) => |s| > 0
    case JList(items) => |items| > 0
    case JObject(fields) => |fields| > 0
  }

  /** Lists and dicts cannot be dict keys or set members. */
  predicate Unhashable(j: Json)
  {
    j.JList? || j.JObject?
  }

  /** The message of the TypeError raised when a list or dict is used as a dict key. */
  function UnhashableText(j: Json): string
  {
    "unhashable type: '" + TypeOf(j).Name() + "'"
  }

  /** `dict.get(key)`: the value stored under `key`, if any. */
  function Lookup(fields: seq<(string, Json)>, key: string): (r: Option<Json>)
    ensures r.Some? <==> exists k :: 0 <= k < |fields| && fields[k].0 == key
    ensures r.Some? ==> exists k :: 0 <= k < |fields| && fields[k] == (key, r.value)
  {
    if |fields| == 0 then None
    else if fields[0].0 == key then Some(fields[0].1)
    else
      var r := Lookup(fields[1..], key);
      assert r.Some? ==> fields[1..][0..] == fields[1..];
      r
  }

  /** `key in dict`. */
  predicate HasKey(fields: seq<(string, Json)>, key: string)
  {
    Lookup(fields, key).Some?
  }

  /** `repr(j)`. Strings are quoted with single quotes. */
  function Repr(j: Json): string
    decreases j, 1
  {
    match j
    case JNull => "None"
    case JBool(b) => if b then "True" else "False"
    case JInt(i) => IntText(i)
    case JString(s) => "'" + s + "'"
    case JList(items) => "[" + Join(", ", ReprItems(j, items)) + "]"
    case JObject(fields) => "{" + Join(", ", ReprFields(j, fields)) + "}"
  }

  function ReprItems(ghost parent: Json, items: seq<Json>): (r: seq<string>)
    requires forall k :: 0 <= k < |items| ==> items[k] < parent
    ensures |r| == |items|
    decreases parent, 0, |items|
  {
    if |items| == 0 then [] else [Repr(items[0])] + ReprItems(parent, items[1..])
  }

  function ReprFields(ghost parent: Json, fields: seq<(string, Json)>): (r: seq<string>)
    requires forall k :: 0 <= k < |fields| ==> fields[k].1 < parent
    ensures |r| == |fields|
    decreases parent, 0, |fields|
  {
    if |fields| == 0 then []
    else ["'" + fields[0].0 + "': " + Repr(fields[0].1)] + ReprFields(parent, fields[1..])
  }

  /** `str(j)`: the text itself for a string, `repr(j)` for everything else. */
  function ToStr(j: Json): string
  {
    if j.JString? then j.s else Repr(j)
  }
}
