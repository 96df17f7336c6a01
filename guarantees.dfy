/** What `main` promises across items and across invocations: items are
    handled in order and only changed ones are written and announced, every
    announcement follows its write, the first exception stops the loop, and a
    failure that keeps recurring is reported once and cached once. */
module Guarantees {
  import opened Wrappers
  import opened PyJson
  import opened Exceptions
  import opened Constants
  import opened Checks
  import opened Compose
  import opened Store
  import opened Services
  import opened Handler

  /** `a` is `b` with some items left out and the others kept in order. */
  predicate SubsequenceOf(a: seq<Json>, b: seq<Json>)
    decreases |b|
  {
    if |b| == 0 then |a| == 0
    else (|a| > 0 && a[|a| - 1] == b[|b| - 1] && SubsequenceOf(a[..|a| - 1], b[..|b| - 1]))
         || SubsequenceOf(a, b[..|b| - 1])
  }

  /** The items `check_work` reports as changed, in list order. */
  function Changed(saved: map<string, string>, works: seq<Json>): (r: seq<Json>)
    ensures |r| <= |works|
    ensures SubsequenceOf(r, works)
  {
    if |works| == 0 then []
    else
      var front := Changed(saved, works[..|works| - 1]);
      var last := works[|works| - 1];
      if CheckWork(last, saved) == Ok(true) then
        assert (front + [last])[..|front|] == front;
        front + [last]
      else front
  }

  /** `check_work` reports every one of `items` as changed. */
  predicate OnlyChanged(saved: map<string, string>, items: seq<Json>)
  {
    forall k :: 0 <= k < |items| ==> CheckWork(items[k], saved) == Ok(true)
  }

  /** Every item of `works` that `check_work` reports as changed is one of `items`. */
  predicate ListsAllChanged(saved: map<string, string>, works: seq<Json>, items: seq<Json>)
  {
    forall x :: x in works && CheckWork(x, saved) == Ok(true) ==> x in items
  }

  lemma OnlyChangedSnoc(saved: map<string, string>, items: seq<Json>, x: Json)
    requires OnlyChanged(saved, items) && CheckWork(x, saved) == Ok(true)
    ensures OnlyChanged(saved, items + [x])
  {
    forall k | 0 <= k < |items| + 1 ensures CheckWork((items + [x])[k], saved) == Ok(true) {
      if k < |items| {
        assert (items + [x])[k] == items[k];
      }
    }
  }

  lemma ListsAllChangedSnoc(saved: map<string, string>, works: seq<Json>, items: seq<Json>, x: Json)
    requires ListsAllChanged(saved, works, items)
    ensures CheckWork(x, saved) == Ok(true) ==> ListsAllChanged(saved, works + [x], items + [x])
    ensures CheckWork(x, saved) != Ok(true) ==> ListsAllChanged(saved, works + [x], items)
  {
    forall y | y in works + [x] && CheckWork(y, saved) == Ok(true)
      ensures y in items + [x]
      ensures CheckWork(x, saved) != Ok(true) ==> y in items
    {
      if y != x {
        assert y in works;
      }
    }
  }

  /** The changed items are exactly the items `check_work` reports as changed:
      each listed item is one, and every one is listed. */
  lemma {:induction false} ChangedExactly(saved: map<string, string>, works: seq<Json>)
    ensures OnlyChanged(saved, Changed(saved, works))
    ensures ListsAllChanged(saved, works, Changed(saved, works))
  {
    if |works| > 0 {
      var front := works[..|works| - 1];
      var last := works[|works| - 1];
      assert front + [last] == works;
      var items := Changed(saved, front);
      assert Changed(saved, works) == if CheckWork(last, saved) == Ok(true) then items + [last] else items;
      ChangedExactly(saved, front);
      ListsAllChangedSnoc(saved, front, items, last);
      if CheckWork(last, saved) == Ok(true) {
        OnlyChangedSnoc(saved, items, last);
      }
    }
  }

  /** The writes and sends of `p` belong, in order, to `items`: the k-th write
      is the row of the k-th item and the k-th send its notification. At most
      one more write follows, and then the loop raised. */
  predicate Announces(p: Progress, items: seq<Json>)
  {
    && |p.sends| == |items|
    && |items| <= |p.writes| <= |items| + 1
    && (|p.writes| > |items| ==> p.failure.Some?)
    && forall k :: 0 <= k < |items| ==>
         && items[k].JObject?
         && p.writes[k] == RowOf(WorkValues(items[k].fields))
         && Notification(items[k].fields) == Ok(p.sends[k])
  }

  /** One loop body, on a loop that has not raised and whose writes and sends
      belong to `items`: a changed item that went through is announced after
      them; otherwise they still belong to `items`. At most one row is added,
      that of `work`, and only when its upsert went through. */
  lemma StepAnnounces(env: Env, saved: map<string, string>, p: Progress, items: seq<Json>, work: Json)
    requires p.failure.None? && Announces(p, items) && |p.writes| == |items|
    ensures var q := Step(env, saved, p, work);
            var c := CheckWork(work, saved);
            && (q.failure.None? ==> c.Ok?)
            && (c.Err? ==> q.failure == Some(c.error))
            && (c == Ok(true) && q.failure.None? ==> Announces(q, items + [work]) && |q.writes| == |items| + 1)
            && (!(c == Ok(true) && q.failure.None?) ==> Announces(q, items))
            && (|q.writes| > |p.writes| <==> c == Ok(true) && env.dbWrite(RowOf(WorkValues(work.fields))).None?)
            && (|q.writes| > |p.writes| ==>
                  && c == Ok(true)
                  && q.writes == p.writes + [RowOf(WorkValues(work.fields))]
                  && (q.failure.Some? ==> Notification(work.fields) == Err(q.failure.value)))
  {
    var c := CheckWork(work, saved);
    if c == Ok(true) {
      var row := RowOf(WorkValues(work.fields));
      if env.dbWrite(row).None? {
        var n := Notification(work.fields);
        if n.Ok? {
          var q := Progress(p.writes + [row], p.sends + [n.value], None);
          assert Step(env, saved, p, work) == q;
          var all := items + [work];
          forall k | 0 <= k < |all|
            ensures all[k].JObject? && q.writes[k] == RowOf(WorkValues(all[k].fields))
            ensures Notification(all[k].fields) == Ok(q.sends[k])
          {
            if k < |items| {
              assert all[k] == items[k];
            }
          }
        } else {
          assert Step(env, saved, p, work) == Progress(p.writes + [row], p.sends, Some(n.error));
        }
      }
    }
  }

  /** A loop body that raised nothing checked its item without error. */
  lemma StepChecked(env: Env, saved: map<string, string>, p: Progress, work: Json)
    requires Step(env, saved, p, work).failure.None?
    ensures CheckWork(work, saved).Ok?
  {
  }

  /** A loop that raised nothing did not raise on its earlier items either,
      and checked its last item without error. */
  lemma ProcessLastChecked(env: Env, saved: map<string, string>, works: seq<Json>)
    requires |works| > 0
    requires Process(env, saved, works).failure.None?
    ensures Process(env, saved, works[..|works| - 1]).failure.None?
    ensures CheckWork(works[|works| - 1], saved).Ok?
  {
    var p0 := Process(env, saved, works[..|works| - 1]);
    assert p0.failure.None?;
    StepChecked(env, saved, p0, works[|works| - 1]);
  }

  /** `check_work` raises on none of the items. */
  predicate AllChecked(saved: map<string, string>, works: seq<Json>)
  {
    forall k :: 0 <= k < |works| ==> CheckWork(works[k], saved).Ok?
  }

  lemma AllCheckedSnoc(saved: map<string, string>, works: seq<Json>)
    requires |works| > 0
    requires AllChecked(saved, works[..|works| - 1])
    requires CheckWork(works[|works| - 1], saved).Ok?
    ensures AllChecked(saved, works)
  {
    var front := works[..|works| - 1];
    forall k | 0 <= k < |works| ensures CheckWork(works[k], saved).Ok? {
      if k < |front| {
        assert works[k] == front[k];
      }
    }
  }

  /** A loop that raised nothing checked every item without error. */
  lemma {:induction false} ProcessChecksAll(env: Env, saved: map<string, string>, works: seq<Json>)
    requires Process(env, saved, works).failure.None?
    ensures AllChecked(saved, works)
  {
    if |works| > 0 {
      ProcessLastChecked(env, saved, works);
      ProcessChecksAll(env, saved, works[..|works| - 1]);
      AllCheckedSnoc(saved, works);
    }
  }

  /** A loop that raised nothing checked every item without error, and wrote
      and announced exactly the changed items, in order: the k-th write is the
      row of the k-th changed item and the k-th send its notification. */
  lemma {:induction false} ProcessSucceeds(env: Env, saved: map<string, string>, works: seq<Json>)
    requires Process(env, saved, works).failure.None?
    ensures AllChecked(saved, works)
    ensures var p := Process(env, saved, works);
            var changed := Changed(saved, works);
            Announces(p, changed) && |p.writes| == |changed|
  {
    ProcessChecksAll(env, saved, works);
    if |works| > 0 {
      var front := works[..|works| - 1];
      var last := works[|works| - 1];
      var p0 := Process(env, saved, front);
      assert p0.failure.None?;
      ProcessSucceeds(env, saved, front);
      var items := Changed(saved, front);
      StepAnnounces(env, saved, p0, items, last);
    }
  }

  /** A loop whose item `i` raised keeps what the earlier items did: the rows
      and notifications of the changed items before `i`, in order, and then
      the row of item `i` when its upsert went through and composing its
      notification raised. The exception is the one item `i` raised. */
  lemma ProcessRaised(env: Env, saved: map<string, string>, works: seq<Json>, i: nat)
    requires i < |works|
    requires Process(env, saved, works[..i]).failure.None?
    requires Process(env, saved, works[..i + 1]).failure.Some?
    ensures Process(env, saved, works) == Process(env, saved, works[..i + 1])
    ensures AllChecked(saved, works[..i])
    ensures Announces(Process(env, saved, works), Changed(saved, works[..i]))
    ensures var p := Process(env, saved, works);
            var c := CheckWork(works[i], saved);
            && (c.Err? ==> p.failure == Some(c.error))
            && (|p.writes| > |Changed(saved, works[..i])| <==>
                  c == Ok(true) && env.dbWrite(RowOf(WorkValues(works[i].fields))).None?)
            && (|p.writes| > |Changed(saved, works[..i])| ==>
                  && c == Ok(true)
                  && p.writes[|p.writes| - 1] == RowOf(WorkValues(works[i].fields))
                  && Notification(works[i].fields) == Err(p.failure.value))
  {
    ProcessFailFast(env, saved, works, i + 1);
    ProcessSucceeds(env, saved, works[..i]);
    ProcessStep(env, saved, works, i);
    StepAnnounces(env, saved, Process(env, saved, works[..i]), Changed(saved, works[..i]), works[i]);
  }

  lemma PrefixOfPrefix<T>(s: seq<T>, n: nat, j: nat)
    requires j <= n <= |s|
    ensures s[..n][..j] == s[..j]
  {
  }

  /** Once the loop raised, a longer list announces what the shorter did. */
  lemma AnnouncesAfterFailure(env: Env, saved: map<string, string>, works: seq<Json>, j: nat)
    requires 0 < |works| && j < |works|
    requires Process(env, saved, works[..|works| - 1]).failure.Some?
    requires Announces(Process(env, saved, works[..|works| - 1]), Changed(saved, works[..|works| - 1][..j]))
    ensures Announces(Process(env, saved, works), Changed(saved, works[..j]))
  {
    var front := works[..|works| - 1];
    PrefixOfPrefix(works, |works| - 1, j);
    var items := Changed(saved, front[..j]);
    assert Changed(saved, works[..j]) == items;
    var p := Process(env, saved, front);
    assert Process(env, saved, works) == p;
  }

  /** Every send follows the write of the same item: the writes and sends are
      those of the changed items of a prefix of the list, in order. */
  lemma {:induction false} WritesPrecedeSends(env: Env, saved: map<string, string>, works: seq<Json>)
    ensures exists j :: 0 <= j <= |works| && Announces(Process(env, saved, works), Changed(saved, works[..j]))
  {
    assert works[..|works|] == works;
    if |works| == 0 {
      assert Announces(Process(env, saved, works), Changed(saved, works[..0]));
    } else {
      var front := works[..|works| - 1];
      if Process(env, saved, front).failure.Some? {
        WritesPrecedeSends(env, saved, front);
        var j :| 0 <= j <= |front| && Announces(Process(env, saved, front), Changed(saved, front[..j]));
        AnnouncesAfterFailure(env, saved, works, j);
      } else if Process(env, saved, works).failure.None? {
        ProcessSucceeds(env, saved, works);
        assert Announces(Process(env, saved, works), Changed(saved, works[..|works|]));
      } else {
        ProcessRaised(env, saved, works, |works| - 1);
        assert Announces(Process(env, saved, works), Changed(saved, works[..|works| - 1]));
      }
    }
  }

  /** The same for the whole `try` block: the writes and sends belong to the
      changed items of a prefix of the fetched `homeworks`, checked against the
      snapshot of the table; a failure before the loop writes and sends nothing. */
  lemma AttemptWritesPrecedeSends(env: Env, rows: seq<Row>)
    ensures exists items :: Announces(Attempt(env, rows), items)
    ensures var a := GetApiAnswer(env.api, env.endpoint);
            var p := Attempt(env, rows);
            if a.Ok? && CheckResponse(a.value).Ok? && env.dbRead.None? then
              var h := CheckResponse(a.value).value;
              exists j :: 0 <= j <= |h| && Announces(p, Changed(Collapse(rows), h[..j]))
            else p.writes == [] && p.sends == [] && p.failure.Some?
  {
    match GetApiAnswer(env.api, env.endpoint)
    case Err(_) =>
      assert Announces(Attempt(env, rows), []);
    case Ok(response) =>
      match CheckResponse(response)
      case Err(_) =>
        assert Announces(Attempt(env, rows), []);
      case Ok(homeworks) =>
        if env.dbRead.None? {
          var saved := Collapse(rows);
          WritesPrecedeSends(env, saved, homeworks);
          var j :| 0 <= j <= |homeworks| && Announces(Process(env, saved, homeworks), Changed(saved, homeworks[..j]));
          assert Announces(Attempt(env, rows), Changed(saved, homeworks[..j]));
        } else {
          assert Announces(Attempt(env, rows), []);
        }
  }

  /** A `try` block that wrote nothing sent nothing. */
  lemma QuietAttempt(env: Env, rows: seq<Row>)
    requires Attempt(env, rows).writes == []
    ensures Attempt(env, rows).sends == []
  {
    AttemptWritesPrecedeSends(env, rows);
    var items :| Announces(Attempt(env, rows), items);
  }

  /** When no item's status changed, the loop writes nothing and sends nothing. */
  lemma {:induction false} ProcessQuietWhenUnchanged(env: Env, saved: map<string, string>, works: seq<Json>)
    requires forall k :: 0 <= k < |works| ==> CheckWork(works[k], saved) == Ok(false)
    ensures Process(env, saved, works) == Progress([], [], None)
  {
    if |works| > 0 {
      ProcessQuietWhenUnchanged(env, saved, works[..|works| - 1]);
    }
  }

  /** The world after one invocation per environment, in order. */
  function RunAll(envs: seq<Env>, w: World): World
  {
    if |envs| == 0 then w else Run(envs[|envs| - 1], RunAll(envs[..|envs| - 1], w)).world
  }

  /** A bucket that cannot be read stops every invocation before anything is
      fetched, written, sent or cached. */
  lemma {:induction false} EmptyBucketStops(envs: seq<Env>, w: World)
    requires |w.objects| == 0
    ensures forall k :: 0 <= k < |envs| ==> Run(envs[k], w) == Outcome(w, Raised)
    ensures RunAll(envs, w) == w
  {
    if |envs| > 0 {
      EmptyBucketStops(envs[..|envs| - 1], w);
    }
  }

  /** A failure raised before any write leaves the table as it was, and a
      later invocation that meets a failure with the same report, whatever
      else its environment holds, changes nothing and returns 200. */
  lemma RepeatIsQuiet(env: Env, env': Env, w: World)
    requires env.storageUp && env.storagePut && |w.objects| > 0
    requires Attempt(env, w.rows).writes == [] && Attempt(env, w.rows).failure.Some?
    requires env'.storageUp
    requires Attempt(env', w.rows).writes == [] && Attempt(env', w.rows).failure.Some?
    requires Report(Attempt(env', w.rows).failure.value) == Report(Attempt(env, w.rows).failure.value)
    ensures Run(env, w).world.rows == w.rows
    ensures Run(env', Run(env, w).world) == Outcome(Run(env, w).world, Alive)
  {
    QuietAttempt(env, w.rows);
    QuietAttempt(env', w.rows);
    var w1 := Run(env, w).world;
    assert w1.objects[CacheKey] == Report(Attempt(env, w.rows).failure.value);
  }

  /** Invocations that all meet failures with the same report before any
      write send the report at most once and write the cache once: the world
      after the first invocation is the world after all of them. */
  lemma {:induction false} RepeatedFailure(envs: seq<Env>, w: World)
    requires |envs| > 0 && envs[0].storagePut && |w.objects| > 0
    requires Attempt(envs[0], w.rows).failure.Some?
    requires forall k :: 0 <= k < |envs| ==>
               && envs[k].storageUp
               && Attempt(envs[k], w.rows).writes == []
               && Attempt(envs[k], w.rows).failure.Some?
               && Report(Attempt(envs[k], w.rows).failure.value) == Report(Attempt(envs[0], w.rows).failure.value)
    ensures RunAll(envs, w) == Run(envs[0], w).world
    ensures var report := Report(Attempt(envs[0], w.rows).failure.value);
            var once := Run(envs[0], w).world;
            && once.rows == w.rows
            && once.objects == w.objects[CacheKey := report]
            && once.delivered == w.delivered +
                 (if CachedMessage(w.objects, true) == Some(report) then [] else Delivery(report, envs[0].accepts))
  {
    QuietAttempt(envs[0], w.rows);
    var front := envs[..|envs| - 1];
    if |envs| == 1 {
      assert front == [];
    } else {
      RepeatedFailure(front, w);
      RepeatIsQuiet(envs[0], envs[|envs| - 1], w);
    }
  }

  /** The NUL default never equals a report, so the first failure after the
      cache object went missing is always sent. */
  lemma ReportIsNotDefault(f: Failure)
    ensures Report(f) != NoCachedText
  {
    assert Report(f)[1] == "Сбой в работе программы: "[1];
  }

  /** A failure other than the cached one is reported and cached: the texts of
      two different failures of the bot's own kinds never coincide. */
  lemma NewFailureReported(env: Env, w: World, cached: Failure)
    requires env.storageUp && |w.objects| > 0
    requires CacheKey in w.objects ==> w.objects[CacheKey] == Report(cached)
    requires var p := Attempt(env, w.rows);
             p.failure.Some? && p.failure.value.Own() && cached.Own() && p.failure.value != cached
    ensures var p := Attempt(env, w.rows);
            var report := Report(p.failure.value);
            Run(env, w).world.delivered ==
              w.delivered + Deliveries(p.sends, env.accepts) + Delivery(report, env.accepts)
  {
    var f := Attempt(env, w.rows).failure.value;
    ReportIsNotDefault(f);
    if Report(f) == Report(cached) {
      ReportInjective(f, cached);
    }
  }
}
