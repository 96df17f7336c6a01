/** Building the two things index.py makes from one changed homework: the
    notification text (`write_message`) and the row for the database
    (`make_work_values`). */
module Compose {
  import opened Wrappers
  import opened Text
  import opened PyJson
  import opened Exceptions
  import opened Constants

  /** `table[value]` for the table of verdict sentences. */
  function VerdictFor(table: seq<(string, string)>, value: string): Option<string>
  {
    if |table| == 0 then None
    else if table[0].0 == value then Some(table[0].1)
    else VerdictFor(table[1..], value)
  }

  /** The sentence one field contributes: none when the field is absent or
      falsy; the prefix and the value for a plain field; the table's sentence for a
      known status and a diagnostic for any other; a TypeError when the status is a
      list or dict, which cannot be looked up in the table. */
  function Segment(work: seq<(string, Json)>, key: string, rule: MessageRule): Result<Option<string>, Failure>
  {
    match Lookup(work, key)
    case None => Ok(None)
    case Some(v) =>
      if !Truthy(v) then Ok(None)
      else match rule
        case Prefixed(p) => Ok(Some(p + " " + ToStr(v) + "."))
        case Verdicts(table) =>
          if Unhashable(v) then Err(Builtin(UnhashableText(v)))
          else if v.JString? && VerdictFor(table, v.s).Some? then Ok(Some(VerdictFor(table, v.s).value))
          else Ok(Some("Отсутствует значение у ключа " + key + ": " + ToStr(v) + "."))
  }

  function AsSeq(o: Option<string>): seq<string>
  {
    if o.Some? then [o.value] else []
  }

  /** Adds one field's outcome to the sentences so far; the first error wins. */
  function Append(acc: Result<seq<string>, Failure>, seg: Result<Option<string>, Failure>): Result<seq<string>, Failure>
  {
    match acc
    case Err(e) => Err(e)
    case Ok(parts) =>
      match seg
      case Err(e) => Err(e)
      case Ok(o) => Ok(parts + AsSeq(o))
  }

  /** The sentences of the fields of `rules`, in order, or the first error. */
  function Segments(work: seq<(string, Json)>, rules: seq<(string, MessageRule)>): Result<seq<string>, Failure>
    decreases |rules|
  {
    if |rules| == 0 then Ok([])
    else Append(Segments(work, rules[..|rules| - 1]), Segment(work, rules[|rules| - 1].0, rules[|rules| - 1].1))
  }

  /** The notification for a changed homework: its sentences joined by one space. */
  function Notification(work: seq<(string, Json)>): Result<string, Failure>
  {
    match Segments(work, MessageKeys)
    case Ok(parts) => Ok(Join(" ", parts))
    case Err(e) => Err(e)
  }

  /** Once a field fails, the fields after it change nothing. */
  lemma {:induction false} SegmentsErrPersists(work: seq<(string, Json)>, rules: seq<(string, MessageRule)>, i: nat)
    requires i <= |rules|
    requires Segments(work, rules[..i]).Err?
    ensures Segments(work, rules) == Segments(work, rules[..i])
    decreases |rules|
  {
    if i < |rules| {
      assert rules[..|rules| - 1][..i] == rules[..i];
      SegmentsErrPersists(work, rules[..|rules| - 1], i);
    } else {
      assert rules[..i] == rules;
    }
  }

  /** `write_message`. */
  method WriteMessage(work: seq<(string, Json)>) returns (r: Result<string, Failure>)
    ensures r == Notification(work)
  {
    var message: seq<string> := [];
    var i := 0;
    while i < |MessageKeys|
      invariant 0 <= i <= |MessageKeys|
      invariant Segments(work, MessageKeys[..i]) == Ok(message)
    {
      var key, rule := MessageKeys[i].0, MessageKeys[i].1;
      SegmentsStep(work, MessageKeys, i);
      ghost var seg := Segment(work, key, rule);
      if HasKey(work, key) && Truthy(Lookup(work, key).value) {
        var value := Lookup(work, key).value;
        var text: string;
        match rule {
          case Prefixed(p) =>
            text := p + " " + ToStr(value) + ".";
          case Verdicts(table) =>
            if Unhashable(value) {
              SegmentsErrPersists(work, MessageKeys, i + 1);
              return Err(Builtin(UnhashableText(value)));
            }
            var verdict := if value.JString? then VerdictFor(table, value.s) else None;
            if verdict.Some? {
              text := verdict.value;
            } else {
              text := "Отсутствует значение у ключа " + key + ": " + ToStr(value) + ".";
            }
        }
        assert seg == Ok(Some(text));
        message := message + [text];
      } else {
        assert seg == Ok(None);
        assert message + AsSeq(None) == message;
      }
      i := i + 1;
    }
    assert MessageKeys[..i] == MessageKeys;
    return Ok(Join(" ", message));
  }

  /** The field's value when it is present and truthy. */
  function Present(work: seq<(string, Json)>, key: string): Option<Json>
  {
    var v := Lookup(work, key);
    if v.Some? && Truthy(v.value) then v else None
  }

  /** The sentence of the lesson name, read straight off the field. */
  function LessonSentence(work: seq<(string, Json)>): Option<string>
  {
    match Present(work, LessonName)
    case None => None
    case Some(v) => Some(LessonPrefix + " " + ToStr(v) + ".")
  }

  /** The sentence of the status: one of the three fixed verdicts, or the
      diagnostic naming the unexpected value. */
  function StatusSentence(work: seq<(string, Json)>): Option<string>
  {
    match Present(work, Status)
    case None => None
    case Some(v) =>
      if v == JString("approved") then Some(Approved)
      else if v == JString("reviewing") then Some(Reviewing)
      else if v == JString("rejected") then Some(Rejected)
      else Some("Отсутствует значение у ключа " + Status + ": " + ToStr(v) + ".")
  }

  /** The sentence of the reviewer's comment. */
  function CommentSentence(work: seq<(string, Json)>): Option<string>
  {
    match Present(work, ReviewerComment)
    case None => None
    case Some(v) => Some(CommentPrefix + " " + ToStr(v) + ".")
  }

  /** The only way composing fails: a non-empty list or dict as the status. */
  predicate StatusUnhashable(work: seq<(string, Json)>)
  {
    Present(work, Status).Some? && Unhashable(Present(work, Status).value)
  }

  /** The table holds exactly the three review verdicts. */
  lemma VerdictTableEntries(code: string)
    ensures VerdictFor(VerdictTable, code) ==
              if code == "approved" then Some(Approved)
              else if code == "reviewing" then Some(Reviewing)
              else if code == "rejected" then Some(Rejected)
              else None
  {
    var t := VerdictTable;
    assert t[0].0 == "approved" && t[0].1 == Approved;
    if code != "approved" {
      var t1 := t[1..];
      assert t1[0].0 == "reviewing" && t1[0].1 == Reviewing;
      assert VerdictFor(t, code) == VerdictFor(t1, code);
      if code != "reviewing" {
        var t2 := t1[1..];
        assert t2[0].0 == "rejected" && t2[0].1 == Rejected;
        assert VerdictFor(t1, code) == VerdictFor(t2, code);
        if code != "rejected" {
          assert VerdictFor(t2, code) == VerdictFor(t2[1..], code);
          assert t2[1..] == [];
        }
      }
    }
  }

  /** Each field's sentence as Segment computes it agrees with the sentence
      read straight off the field. */
  lemma LessonSegment(work: seq<(string, Json)>)
    ensures Segment(work, LessonName, Prefixed(LessonPrefix)) == Ok(LessonSentence(work))
  {
  }

  lemma CommentSegment(work: seq<(string, Json)>)
    ensures Segment(work, ReviewerComment, Prefixed(CommentPrefix)) == Ok(CommentSentence(work))
  {
  }

  lemma StatusSegment(work: seq<(string, Json)>)
    ensures Segment(work, Status, Verdicts(VerdictTable)) ==
              if StatusUnhashable(work) then Err(Builtin(UnhashableText(Present(work, Status).value)))
              else Ok(StatusSentence(work))
  {
    var v := Present(work, Status);
    if v.Some? && v.value.JString? {
      VerdictTableEntries(v.value.s);
    }
  }

  /** One more rule adds its field's sentence, or its error, to those before it. */
  lemma SegmentsStep(work: seq<(string, Json)>, rules: seq<(string, MessageRule)>, i: nat)
    requires i < |rules|
    ensures Segments(work, rules[..i + 1]) == Append(Segments(work, rules[..i]), Segment(work, rules[i].0, rules[i].1))
  {
    assert rules[..i + 1][..i] == rules[..i];
  }

  /** The notification is the lesson sentence, then the status sentence, then the
      comment sentence, each present only when its field is present and truthy,
      joined by single spaces; it fails only for a list or dict status. */
  lemma NotificationLayout(work: seq<(string, Json)>)
    ensures Notification(work) ==
              if StatusUnhashable(work) then Err(Builtin(UnhashableText(Present(work, Status).value)))
              else Ok(Join(" ", AsSeq(LessonSentence(work)) + AsSeq(StatusSentence(work))
                                + AsSeq(CommentSentence(work))))
  {
    var keys := MessageKeys;
    LessonSegment(work);
    StatusSegment(work);
    CommentSegment(work);
    assert keys[0].0 == LessonName && keys[0].1 == Prefixed(LessonPrefix);
    assert keys[1].0 == Status && keys[1].1 == Verdicts(VerdictTable);
    assert keys[2].0 == ReviewerComment && keys[2].1 == Prefixed(CommentPrefix);
    assert Segments(work, keys[..0]) == Ok([]);
    SegmentsStep(work, keys, 0);
    SegmentsStep(work, keys, 1);
    SegmentsStep(work, keys, 2);
    assert keys[..3] == keys;
    assert [] + AsSeq(LessonSentence(work)) == AsSeq(LessonSentence(work));
  }

  /** A homework without any of the three fields gives the empty message. */
  lemma EmptyNotification(work: seq<(string, Json)>)
    requires Present(work, LessonName).None? && Present(work, Status).None?
    requires Present(work, ReviewerComment).None?
    ensures Notification(work) == Ok("")
  {
    NotificationLayout(work);
  }

  /** A known status contributes exactly its sentence, between the lesson and
      the comment sentences. */
  lemma KnownStatusNotification(work: seq<(string, Json)>, code: string)
    requires Lookup(work, Status) == Some(JString(code))
    requires VerdictFor(VerdictTable, code).Some?
    ensures Notification(work) ==
              Ok(Join(" ", AsSeq(LessonSentence(work)) + [VerdictFor(VerdictTable, code).value]
                           + AsSeq(CommentSentence(work))))
  {
    NotificationLayout(work);
    VerdictTableEntries(code);
  }

  /** Any other string status contributes the diagnostic naming it; composing
      does not fail. */
  lemma UnknownStatusNotification(work: seq<(string, Json)>, code: string)
    requires Lookup(work, Status) == Some(JString(code)) && code != ""
    requires VerdictFor(VerdictTable, code).None?
    ensures Notification(work) ==
              Ok(Join(" ", AsSeq(LessonSentence(work))
                           + ["Отсутствует значение у ключа " + Status + ": " + code + "."]
                           + AsSeq(CommentSentence(work))))
  {
    NotificationLayout(work);
    VerdictTableEntries(code);
  }

  /** The six values written to the database: column k holds the field of the
      same name, or 0 when the homework lacks it. */
  function WorkValues(work: seq<(string, Json)>): seq<Json>
  {
    seq(|WriteFields|, k requires 0 <= k < |WriteFields| => Lookup(work, WriteFields[k]).GetOr(JInt(0)))
  }

  /** `make_work_values`: append 0 for each column, then overwrite it with
      the field when the homework has one. */
  method MakeWorkValues(work: seq<(string, Json)>) returns (values: seq<Json>)
    ensures |values| == |WriteFields|
    ensures forall k :: 0 <= k < |WriteFields| ==>
              values[k] == if HasKey(work, WriteFields[k]) then Lookup(work, WriteFields[k]).value else JInt(0)
    ensures values == WorkValues(work)
  {
    values := [];
    for i := 0 to |WriteFields|
      invariant |values| == i
      invariant forall k :: 0 <= k < i ==>
                  values[k] == if HasKey(work, WriteFields[k]) then Lookup(work, WriteFields[k]).value else JInt(0)
    {
      values := values + [JInt(0)];
      if HasKey(work, WriteFields[i]) {
        values := values[|values| - 1 := Lookup(work, WriteFields[i]).value];
      }
    }
  }
}
