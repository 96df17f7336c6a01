/** `main`, the cloud-function handler: read the cached error report, fetch and
    check the API answer, snapshot the table, then for each homework in order
    upsert its row and send a notification when its status changed; on the
    first exception, send and cache the report unless it equals the cached one. */
module Handler {
  import opened Wrappers
  import opened PyJson
  import opened Exceptions
  import opened Constants
  import opened Checks
  import opened Compose
  import opened Store
  import opened Services

  /** Everything the outside world decides for one invocation. */
  datatype Env = Env(
    endpoint: string,              // ENDPOINTS['YP_ENDPOINT']
    api: ApiReply,                 // what `requests.get(...)` yields
    storageUp: bool,               // whether the bucket can be listed and read
    storagePut: bool,              // whether `put_object` succeeds
    dbRead: Option<string>,        // driver error of the snapshot query, if any
    dbWrite: Row -> Option<string>,// driver error of the UPSERT of a row, if any
    accepts: string -> bool        // whether Telegram takes a text
  )

  /** What the `try` block did before it finished or raised: rows upserted,
      texts handed to `send_message`, and the exception, if one was raised. */
  datatype Progress = Progress(writes: seq<Row>, sends: seq<string>, failure: Option<Failure>)

  /** One pass of the loop body for `work`, on a progress with no failure yet. */
  function Step(env: Env, saved: map<string, string>, p: Progress, work: Json): Progress
  {
    match CheckWork(work, saved)
    case Err(e) => p.(failure := Some(e))
    case Ok(changed) => if !changed then p else Record(env, p, work.fields)
  }

  /** The body for a changed homework: upsert its row, then compose and send
      its notification. */
  function Record(env: Env, p: Progress, work: seq<(string, Json)>): Progress
  {
    var row := RowOf(WorkValues(work));
    var refusal := env.dbWrite(row);
    if refusal.Some? then p.(failure := Some(Driver(refusal.value)))
    else match Notification(work)
      case Err(e) => Progress(p.writes + [row], p.sends, Some(e))
      case Ok(m) => Progress(p.writes + [row], p.sends + [m], None)
  }

  /** The loop over `homeworks`, which stops at the first exception. */
  function Process(env: Env, saved: map<string, string>, works: seq<Json>): Progress
  {
    if |works| == 0 then Progress([], [], None)
    else
      var p := Process(env, saved, works[..|works| - 1]);
      if p.failure.Some? then p else Step(env, saved, p, works[|works| - 1])
  }

  /** The whole `try` block after the cache read, on the table as it stands. */
  function Attempt(env: Env, rows: seq<Row>): Progress
  {
    match GetApiAnswer(env.api, env.endpoint)
    case Err(e) => Progress([], [], Some(e))
    case Ok(response) =>
      match CheckResponse(response)
      case Err(e) => Progress([], [], Some(e))
      case Ok(homeworks) =>
        if env.dbRead.Some? then Progress([], [], Some(Driver(env.dbRead.value)))
        else Process(env, Collapse(rows), homeworks)
  }

  /** How the handler ends: it returns a response, or an exception escapes it. */
  datatype Completion = Returned(statusCode: int, body: string) | Raised

  const Alive: Completion := Returned(StatusOk, "its alive")

  /** The state of the three services. */
  datatype World = World(rows: seq<Row>, objects: map<string, string>, delivered: seq<string>)

  datatype Outcome = Outcome(world: World, completion: Completion)

  /** The table after the given UPSERTs, in order. */
  function ApplyWrites(rows: seq<Row>, writes: seq<Row>): seq<Row>
  {
    if |writes| == 0 then rows
    else Upserted(ApplyWrites(rows, writes[..|writes| - 1]), writes[|writes| - 1])
  }

  /** What the chat receives from the given `send_message` calls, in order. */
  function Deliveries(sends: seq<string>, accepts: string -> bool): seq<string>
  {
    if |sends| == 0 then []
    else Deliveries(sends[..|sends| - 1], accepts) + Delivery(sends[|sends| - 1], accepts)
  }

  /** One invocation of `main` on the world `w`. It returns the 200 answer,
      except in two cases where an exception escapes it: the cache read fails
      (the report then reads an unbound `old_message`), or a new failure
      cannot be cached. The cache changes only to hold the report of a failure,
      and a report equal to the cached text is neither sent nor written; any
      other report is sent after the loop's notifications and then cached. */
  function Run(env: Env, w: World): (r: Outcome)
    ensures r.completion == Alive || r.completion == Raised
    ensures CachedMessage(w.objects, env.storageUp).None? ==> r == Outcome(w, Raised)
    ensures var cached := CachedMessage(w.objects, env.storageUp);
            var p := Attempt(env, w.rows);
            r.completion == Raised <==>
              cached.None? || (p.failure.Some? && Report(p.failure.value) != cached.value && !env.storagePut)
    ensures r.world.objects == w.objects ||
            (var p := Attempt(env, w.rows);
             p.failure.Some? && r.world.objects == w.objects[CacheKey := Report(p.failure.value)])
    ensures var cached := CachedMessage(w.objects, env.storageUp);
            var p := Attempt(env, w.rows);
            cached.Some? && p.failure.Some? && Report(p.failure.value) == cached.value ==>
              r == Outcome(World(ApplyWrites(w.rows, p.writes), w.objects,
                                 w.delivered + Deliveries(p.sends, env.accepts)), Alive)
    ensures var cached := CachedMessage(w.objects, env.storageUp);
            var p := Attempt(env, w.rows);
            cached.Some? && p.failure.Some? && Report(p.failure.value) != cached.value ==>
              var report := Report(p.failure.value);
              r == Outcome(World(ApplyWrites(w.rows, p.writes),
                                 if env.storagePut then w.objects[CacheKey := report] else w.objects,
                                 w.delivered + Deliveries(p.sends, env.accepts) + Delivery(report, env.accepts)),
                           if env.storagePut then Alive else Raised)
    ensures var cached := CachedMessage(w.objects, env.storageUp);
            var p := Attempt(env, w.rows);
            cached.Some? && p.failure.None? ==>
              r == Outcome(World(ApplyWrites(w.rows, p.writes), w.objects,
                                 w.delivered + Deliveries(p.sends, env.accepts)), Alive)
  {
    var cached := CachedMessage(w.objects, env.storageUp);
    if cached.None? then Outcome(w, Raised)
    else
      var p := Attempt(env, w.rows);
      var after := World(ApplyWrites(w.rows, p.writes), w.objects, w.delivered + Deliveries(p.sends, env.accepts));
      if p.failure.None? then Outcome(after, Alive)
      else
        var report := Report(p.failure.value);
        if report == cached.value then Outcome(after, Alive)
        else
          var reported := after.(delivered := after.delivered + Delivery(report, env.accepts));
          if env.storagePut then Outcome(reported.(objects := reported.objects[CacheKey := report]), Alive)
          else Outcome(reported, Raised)
  }

  /** Once an item has raised, the later items change nothing. */
  lemma {:induction false} ProcessFailFast(env: Env, saved: map<string, string>, works: seq<Json>, i: nat)
    requires i <= |works|
    requires Process(env, saved, works[..i]).failure.Some?
    ensures Process(env, saved, works) == Process(env, saved, works[..i])
  {
    if i < |works| {
      var front := works[..|works| - 1];
      assert front[..i] == works[..i];
      ProcessFailFast(env, saved, front, i);
    } else {
      assert works[..i] == works;
    }
  }

  lemma ApplyWritesSnoc(rows: seq<Row>, writes: seq<Row>, row: Row)
    ensures ApplyWrites(rows, writes + [row]) == Upserted(ApplyWrites(rows, writes), row)
  {
    assert (writes + [row])[..|writes|] == writes;
  }

  lemma DeliveriesSnoc(sends: seq<string>, message: string, accepts: string -> bool)
    ensures Deliveries(sends + [message], accepts) == Deliveries(sends, accepts) + Delivery(message, accepts)
  {
    assert (sends + [message])[..|sends|] == sends;
  }

  /** The loop body of `main` for one homework. */
  method HandleWork(env: Env, saved: map<string, string>, work: Json, db: Database, chat: Chat,
                    ghost rows0: seq<Row>, ghost delivered0: seq<string>,
                    ghost writes: seq<Row>, ghost sends: seq<string>)
    returns (failure: Option<Failure>, ghost writes': seq<Row>, ghost sends': seq<string>)
    requires db.rows == ApplyWrites(rows0, writes)
    requires chat.delivered == delivered0 + Deliveries(sends, env.accepts)
    modifies db, chat
    ensures Step(env, saved, Progress(writes, sends, None), work) == Progress(writes', sends', failure)
    ensures db.rows == ApplyWrites(rows0, writes')
    ensures chat.delivered == delivered0 + Deliveries(sends', env.accepts)
  {
    var changed := CheckWork(work, saved);
    if changed.Err? {
      return Some(changed.error), writes, sends;
    }
    if !changed.value {
      return None, writes, sends;
    }
    failure, writes', sends' := RecordWork(env, work.fields, db, chat, rows0, delivered0, writes, sends);
  }

  /** The loop body of `main` for a homework whose status changed. */
  method RecordWork(env: Env, work: seq<(string, Json)>, db: Database, chat: Chat,
                    ghost rows0: seq<Row>, ghost delivered0: seq<string>,
                    ghost writes: seq<Row>, ghost sends: seq<string>)
    returns (failure: Option<Failure>, ghost writes': seq<Row>, ghost sends': seq<string>)
    requires db.rows == ApplyWrites(rows0, writes)
    requires chat.delivered == delivered0 + Deliveries(sends, env.accepts)
    modifies db, chat
    ensures Record(env, Progress(writes, sends, None), work) == Progress(writes', sends', failure)
    ensures db.rows == ApplyWrites(rows0, writes')
    ensures chat.delivered == delivered0 + Deliveries(sends', env.accepts)
  {
    writes', sends' := writes, sends;
    var values := MakeWorkValues(work);
    var row := RowOf(values);
    failure := db.Upsert(row, env.dbWrite(row));
    if failure.Some? {
      return;
    }
    ApplyWritesSnoc(rows0, writes, row);
    writes' := writes + [row];
    var message := WriteMessage(work);
    if message.Err? {
      return Some(message.error), writes', sends';
    }
    chat.SendMessage(message.value, env.accepts);
    DeliveriesSnoc(sends, message.value, env.accepts);
    sends' := sends + [message.value];
  }

  /** One more item extends the loop by one step. */
  lemma ProcessStep(env: Env, saved: map<string, string>, works: seq<Json>, i: nat)
    requires i < |works|
    requires Process(env, saved, works[..i]).failure.None?
    ensures Process(env, saved, works[..i + 1]) == Step(env, saved, Process(env, saved, works[..i]), works[i])
  {
    assert works[..i + 1][..i] == works[..i];
  }

  /** The loop of `main` over the checked homeworks. */
  method HandleWorks(env: Env, saved: map<string, string>, works: seq<Json>, db: Database, chat: Chat)
    returns (failure: Option<Failure>, ghost writes: seq<Row>, ghost sends: seq<string>)
    modifies db, chat
    ensures Process(env, saved, works) == Progress(writes, sends, failure)
    ensures db.rows == ApplyWrites(old(db.rows), writes)
    ensures chat.delivered == old(chat.delivered) + Deliveries(sends, env.accepts)
  {
    writes, sends, failure := [], [], None;
    var i := 0;
    while i < |works| && failure.None?
      invariant 0 <= i <= |works|
      invariant Process(env, saved, works[..i]) == Progress(writes, sends, failure)
      invariant db.rows == ApplyWrites(old(db.rows), writes)
      invariant chat.delivered == old(chat.delivered) + Deliveries(sends, env.accepts)
    {
      ProcessStep(env, saved, works, i);
      failure, writes, sends := HandleWork(env, saved, works[i], db, chat, old(db.rows), old(chat.delivered), writes, sends);
      i := i + 1;
    }
    if failure.Some? {
      ProcessFailFast(env, saved, works, i);
    } else {
      assert works[..i] == works;
    }
  }

  /** The `try` block of `main` after the cache read. */
  method TryBlock(env: Env, db: Database, chat: Chat)
    returns (failure: Option<Failure>, ghost writes: seq<Row>, ghost sends: seq<string>)
    modifies db, chat
    ensures Attempt(env, old(db.rows)) == Progress(writes, sends, failure)
    ensures db.rows == ApplyWrites(old(db.rows), writes)
    ensures chat.delivered == old(chat.delivered) + Deliveries(sends, env.accepts)
  {
    writes, sends := [], [];
    var answer := GetApiAnswer(env.api, env.endpoint);
    if answer.Err? {
      return Some(answer.error), writes, sends;
    }
    var homeworks := CheckResponse(answer.value);
    if homeworks.Err? {
      return Some(homeworks.error), writes, sends;
    }
    var saved := db.Snapshot(env.dbRead);
    if saved.Err? {
      return Some(saved.error), writes, sends;
    }
    failure, writes, sends := HandleWorks(env, saved.value, homeworks.value, db, chat);
  }

  /** `main` itself, on the live services. */
  method Invoke(env: Env, db: Database, bucket: Bucket, chat: Chat) returns (c: Completion)
    modifies db, bucket, chat
    ensures Run(env, World(old(db.rows), old(bucket.objects), old(chat.delivered)))
            == Outcome(World(db.rows, bucket.objects, chat.delivered), c)
  {
    var oldMessage := bucket.ReadCachedMessage(env.storageUp);
    if oldMessage.None? {
      return Raised;
    }
    var failure, writes, sends := TryBlock(env, db, chat);
    if failure.Some? {
      var message := Report(failure.value);
      if oldMessage.value != message {
        chat.SendMessage(message, env.accepts);
        var written := bucket.WriteCachedMessage(message, env.storagePut);
        if !written {
          return Raised;
        }
      }
    }
    return Alive;
  }
}
