/** The decisions of index.py that take a value and either return or raise:
    reading the HTTP answer (`get_api_answer`), validating it
    (`check_response`) and deciding whether one homework changed (`check_work`). */
module Checks {
  import opened Wrappers
  import opened Text
  import opened PyJson
  import opened Exceptions
  import opened Constants

  /** What the HTTP library delivers: a transport error, or a status code with
      the decoded JSON body. */
  datatype ApiReply =
    | Unreachable(error: string)
    | Answer(code: int, body: Json)

  /** `get_api_answer`: a transport error becomes SendRequest, a status other
      than 200 becomes ResponseCode naming the endpoint; otherwise the body. */
  function GetApiAnswer(reply: ApiReply, endpoint: string): (r: Result<Json, Failure>)
    ensures r.Ok? <==> reply.Answer? && reply.code == StatusOk
    ensures r.Ok? ==> r.value == reply.body
    ensures reply.Unreachable? ==> r == Err(SendRequest(reply.error))
    ensures reply.Answer? && reply.code != StatusOk ==> r == Err(ResponseCode(reply.code, endpoint))
  {
    match reply
    case Unreachable(e) => Err(SendRequest(e))
    case Answer(code, body) =>
      if code != StatusOk then Err(ResponseCode(code, endpoint)) else Ok(body)
  }

  /** The first of `keys` that the object lacks. */
  function FirstMissing(fields: seq<(string, Json)>, keys: seq<string>): (r: Option<string>)
    ensures r.Some? ==> r.value in keys && !HasKey(fields, r.value)
    ensures r.None? <==> forall k :: 0 <= k < |keys| ==> HasKey(fields, keys[k])
  {
    if |keys| == 0 then None
    else if !HasKey(fields, keys[0]) then Some(keys[0])
    else
      var r := FirstMissing(fields, keys[1..]);
      assert forall k :: 1 <= k < |keys| ==> keys[k] == keys[1..][k - 1];
      r
  }

  /** Every rule the answer breaks, each one judged on its own: not an object;
      no `homeworks`; no `current_date`; `homeworks` not a list; an empty list. */
  function Violations(response: Json): seq<Failure>
  {
    if !response.JObject? then [FieldType(Dict, TypeOf(response))]
    else MissingKeys(response.fields, ResponseKeys) + ListViolations(response.fields)
  }

  /** A Field failure for each of `keys` the object lacks, in order. */
  function MissingKeys(fields: seq<(string, Json)>, keys: seq<string>): (r: seq<Failure>)
    ensures |r| == 0 <==> forall k :: 0 <= k < |keys| ==> HasKey(fields, keys[k])
  {
    if |keys| == 0 then []
    else
      var rest := MissingKeys(fields, keys[1..]);
      assert forall k :: 1 <= k < |keys| ==> keys[k] == keys[1..][k - 1];
      (if HasKey(fields, keys[0]) then [] else [Field(keys[0])]) + rest
  }

  /** The rules about the value under `homeworks`, if there is one. */
  function ListViolations(fields: seq<(string, Json)>): seq<Failure>
  {
    match Lookup(fields, Homeworks)
    case None => []
    case Some(h) =>
      if !h.JList? then [FieldType(List, TypeOf(h))]
      else if |h.items| == 0 then [EmptyField]
      else []
  }

  /** `check_response`: the answer is accepted exactly when it breaks no rule;
      otherwise the failure raised is the first broken rule in the order
      above, however many are broken. An accepted answer yields its
      `homeworks` list, which is non-empty. */
  function CheckResponse(response: Json): (r: Result<seq<Json>, Failure>)
    ensures r.Err? <==> |Violations(response)| > 0
    ensures r.Err? ==> r.error == Violations(response)[0]
    ensures r.Ok? ==> response.JObject? && Lookup(response.fields, Homeworks) == Some(JList(r.value))
    ensures r.Ok? ==> |r.value| > 0
  {
    assert ResponseKeys[1..] == [CurrentDate];
    if !response.JObject? then Err(FieldType(Dict, TypeOf(response)))
    else
      var missing := FirstMissing(response.fields, ResponseKeys);
      if missing.Some? then
        assert Violations(response)[0] == Field(missing.value) by {
          if HasKey(response.fields, Homeworks) {
            assert MissingKeys(response.fields, ResponseKeys[1..]) == [Field(CurrentDate)];
          }
        }
        Err(Field(missing.value))
      else
        var h := Lookup(response.fields, Homeworks).value;
        assert MissingKeys(response.fields, ResponseKeys) == [];
        if !h.JList? then Err(FieldType(List, TypeOf(h)))
        else if |h.items| == 0 then Err(EmptyField)
        else Ok(h.items)
  }

  /** `key in value` for a JSON value: a dict tests its keys, a list its
      elements, a string its substrings; numbers, booleans and None raise. */
  function Contains(value: Json, key: string): Result<bool, Failure>
  {
    match value
    case JObject(fields) => Ok(HasKey(fields, key))
    case JList(items) => Ok(JString(key) in items)
    case JString(s) => Ok(IsSubstring(key, s))
    case _ => Err(Builtin("argument of type '" + TypeOf(value).Name() + "' is not iterable"))
  }

  /** `value[key]` with a string key; a missing dict key raises the plain
      `KeyError`, whose text is the key in quotes. */
  function Subscript(value: Json, key: string): Result<Json, Failure>
  {
    match value
    case JObject(fields) =>
      if HasKey(fields, key) then Ok(Lookup(fields, key).value) else Err(Builtin("'" + key + "'"))
    case JList(_) => Err(Builtin("list indices must be integers or slices, not str"))
    case JString(_) => Err(Builtin("string indices must be integers, not 'str'"))
    case _ => Err(Builtin("'" + TypeOf(value).Name() + "' object is not subscriptable"))
  }

  /** The first of `keys` that `value` does not contain, or the error the test raised. */
  function FirstAbsent(value: Json, keys: seq<string>): (r: Result<Option<string>, Failure>)
    ensures value.JObject? ==> r == Ok(FirstMissing(value.fields, keys))
  {
    if |keys| == 0 then Ok(None)
    else match Contains(value, keys[0])
      case Err(e) => Err(e)
      case Ok(present) => if !present then Ok(Some(keys[0])) else FirstAbsent(value, keys[1..])
  }

  /** `check_work`: True means "changed, notify", False "unchanged". */
  function CheckWork(work: Json, saved: map<string, string>): (r: Result<bool, Failure>)
    ensures r.Ok? ==> work.JObject? && HasKey(work.fields, Status) && HasKey(work.fields, HomeworkName)
    ensures work.JObject? ==> (r == Err(Field(Status)) <==> !HasKey(work.fields, Status))
    ensures work.JObject? && HasKey(work.fields, Status) ==>
              (r == Err(Field(HomeworkName)) <==> !HasKey(work.fields, HomeworkName))
    ensures r == Ok(false) <==>
              && work.JObject?
              && HasKey(work.fields, Status)
              && var name := Lookup(work.fields, HomeworkName);
              && name.Some? && name.value.JString? && name.value.s in saved
              && Lookup(work.fields, Status) == Some(JString(saved[name.value.s]))
    ensures work.JObject? && HasKey(work.fields, Status) &&
            (var name := Lookup(work.fields, HomeworkName);
             name.Some? && name.value.JString? && name.value.s !in saved)
            ==> r == Ok(true)
  {
    assert ParseKeys[1..] == [HomeworkName];
    match FirstAbsent(work, ParseKeys)
    case Err(e) => Err(e)
    case Ok(absent) =>
      if absent.Some? then Err(Field(absent.value))
      else match Subscript(work, Status)
        case Err(e) => Err(e)
        case Ok(status) => match Subscript(work, HomeworkName)
          case Err(e) => Err(e)
          case Ok(name) =>
            if Unhashable(name) then Err(Builtin(UnhashableText(name)))
            else Ok(!(name.JString? && name.s in saved && status == JString(saved[name.s])))
  }
}
