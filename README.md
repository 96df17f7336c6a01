# pract_tmbot in Dafny

pract_tmbot is a Telegram bot that runs as a cloud function. On each invocation
it asks the Practicum homework API for the reviewer verdicts on the owner's
homeworks. It compares each homework's status with the statuses stored in a
YDB table (`works`). For every homework whose status changed, it upserts the
row and sends a notification to a Telegram chat. When anything raises, it
sends an error report, unless the report equals the last one. The last report
is cached in an Object Storage bucket.

This project models that pipeline:

- `Checks`: the answer of the API (`get_api_answer`), its validation
  (`check_response`) and the per-homework change test (`check_work`).
  Python's own behaviour is written out. `in` on a dict, a list or a string
  and `[]` on a dict are modelled as Python evaluates them. `in` on a number,
  a boolean or None, `[]` on a list or a string, and an unhashable name raise
  `TypeError`.
- `Compose`: the notification text (`write_message`) and the six values of
  the database row (`make_work_values`). Both are loops that build their
  result step by step, so both are methods proved against a specification
  function.
- `Exceptions`: the seven exception classes and the text `str()` gives for
  each. Deduplication compares these texts. Two of the bot's own failures
  have equal texts only when they are the same failure.
- `Store`: the table as rows keyed by `id`, the UPSERT, and the fold that
  turns the rows into the name-to-status snapshot.
- `Services`: the table, the cache bucket and the chat as classes whose
  methods update their fields. Driver and network failures are inputs.
- `Handler`: `main` as the method `Invoke`, proved equal to the pure
  function `Run` on the state of the three services.
- `Guarantees`: properties of `main` across items and across invocations.
  Items are handled in order. Only changed items are written and announced,
  and every announcement follows its write. The first exception stops the
  loop. A recurring failure is reported once and cached once.
- `PyJson`, `Text`, `Constants`, `Wrappers`: JSON values with Python's
  truthiness, `str()` and `repr()`; integer printing and `' '.join`; the
  constants of `constants.py`; `Option` and `Result`.

Inputs from outside the program are parameters of `Handler.Env`:

- the HTTP reply, either a transport error or a status code with the decoded JSON body;
- whether the bucket can be read, and whether it can be written;
- the driver error of the snapshot query, if any;
- the driver error of each UPSERT, as a function of the row;
- whether Telegram accepts a text.

## What the code does where its intent and its effect differ

The model follows the code in each of these cases.

- `read_s3` falls back to a NUL default when the cache object is missing
  (index.py:58), so a missing cache looks meant to be harmless. In fact
  `read_s3` raises when the bucket cannot be listed, and also when the bucket
  is empty, because the listing then has no `Contents`. The handler then
  formats the report and compares it with `old_message`, which was never
  assigned. That raises `UnboundLocalError` out of `main`, so nothing is sent
  and nothing is written. `Handler.Run` returns `Raised` with the world
  unchanged. A bucket that starts empty therefore stops the bot on every
  invocation; `Guarantees.EmptyBucketStops` states this.
- `main` ends by returning the 200 dict, and its `except Exception` looks
  meant to catch every failure. It does not reach the return when the cache
  read fails, or when a new report cannot be written to the bucket, since
  `write_s3` runs inside the handler. `Handler.Run` states both cases.
- `write_message` looks meant to fall back to the "no value for key"
  sentence for any unknown status. It raises `TypeError` when `status` is a
  non-empty list or dict, because that value is looked up in the verdict
  dict. An empty list or dict is falsy and is skipped. The row has already
  been upserted at that point. `Compose.NotificationLayout` states this case.
- The guard `if not check_tokens:` tests the function object, which is always
  truthy. The model treats the guard as always passing.

## Model

| member | source | states |
|---|---|---|
| Checks.GetApiAnswer | index.py:87-102 | a transport error becomes the SendRequest failure with its text; a status other than 200 becomes ResponseCode with that code and the endpoint; only a 200 reply yields its body, unchanged |
| Checks.FirstMissing | index.py:110-112 | the key reported missing is one of the required keys and is absent; none is reported exactly when all are present |
| Checks.CheckResponse | index.py:105-122 | the answer is rejected exactly when it breaks one of the rules (not a dict; no `homeworks`; no `current_date`; `homeworks` not a list; empty list); the failure raised is the first broken rule in that order; an accepted answer yields exactly `response['homeworks']`, which is a non-empty list |
| Checks.FirstAbsent | index.py:197-199 | on a dict, the first required key that is absent, in the order status, homework_name |
| Checks.CheckWork | index.py:195-210 | a missing `status` raises Field('status'); otherwise a missing `homework_name` raises Field('homework_name'); the result is False exactly when the name is a string key of the snapshot and the status equals the stored status; a string name absent from the snapshot always gives True |
| Compose.WriteMessage | index.py:178-192 | the loop's result equals the specification Notification, including its TypeError |
| Compose.SegmentsErrPersists | index.py:181-190 | once a segment raises, the later keys do not change the outcome |
| Compose.LessonSegment | index.py:182-184 | the `lesson_name` segment is the prefix, a space, str(value) and a period, present only for a present truthy value |
| Compose.CommentSegment | index.py:182-184 | the same for `reviewer_comment` with its prefix |
| Compose.StatusSegment | index.py:182-188 | a non-empty list or dict status raises the unhashable-type TypeError; otherwise the status segment is the verdict sentence or the "no value for key" sentence |
| Compose.VerdictTableEntries | constants.py:17-21 | the verdict table maps exactly approved, reviewing and rejected to their sentences |
| Compose.NotificationLayout | index.py:180-192 | the notification is the space-join of the lesson, status and comment segments in that order, each present only for a present truthy field; it fails only for a non-empty list or dict status |
| Compose.EmptyNotification | index.py:180-192 | a homework with none of the three fields gives the empty string |
| Compose.KnownStatusNotification | index.py:185-186 | a known status contributes exactly its table sentence, between the lesson and comment segments |
| Compose.UnknownStatusNotification | index.py:187-188 | an unknown non-empty status contributes "Отсутствует значение у ключа status: {value}." |
| Compose.MakeWorkValues | index.py:125-133 | six values; the k-th is the homework's value for the k-th write column if present, else 0 |
| Exceptions.ResponseCodeTextInjective | exceptions.py:20-29 | the text determines both code and endpoint, so a 404 text and an "answered with code" text never coincide |
| Exceptions.FieldTypeTextInjective | exceptions.py:39-43 | the text determines both the expected and the received type, in that order |
| Exceptions.TextInjective | exceptions.py:1-89 | two of the seven exception kinds give the same text only when they are the same failure with the same arguments |
| Exceptions.ReportInjective | index.py:239-241 | the same holds for the report text "Сбой в работе программы: {error}" that is compared with the cache |
| Store.UpsertedContents | index.py:158-175 | after an UPSERT the table holds the new row, keeps every row with another id, holds nothing else and keeps ids unique |
| Store.CollapseKeys | index.py:149-155 | the snapshot's keys are exactly the homework names in the table |
| Store.CollapseLastWins | index.py:149-155 | for a name, the snapshot keeps the status of the last row with that name |
| Services.Database.Upsert | index.py:158-175 | a driver error leaves the table as it was and becomes a Driver failure; otherwise the table is the UPSERT of the row |
| Services.Database.Snapshot | index.py:136-155 | the loop's map equals the fold of the rows, or the driver error |
| Services.CachedMessage | index.py:56-65 | the read fails exactly when the bucket is unreachable or empty; a missing object reads as the NUL default |
| Services.Bucket.ReadCachedMessage | index.py:56-65 | returns the stored report when the object exists, per CachedMessage |
| Services.Bucket.WriteCachedMessage | index.py:68-71 | a successful write replaces the cached object with the text and nothing else; a failed one changes nothing |
| Services.Truncate | index.py:80 | at most 255 characters, a prefix of the message, the whole message when it fits |
| Services.Delivery | index.py:74-84 | a send adds at most one text to the chat: the truncated message if Telegram takes it, nothing otherwise |
| Services.Chat.SendMessage | index.py:74-84 | the chat grows by exactly the delivery of the message; the call never fails |
| Handler.Run | index.py:223-247 | the handler returns the 200 answer except when the cache read fails or a new report cannot be cached; a failed cache read raises with the table, the cache and the chat unchanged; the cache changes only to hold the report of the failure; a run that raises nothing applies the loop's writes and sends and returns 200; a report equal to the cached text is neither sent nor written, and then only the loop's own writes and sends take effect; any other report is sent after the loop's sends and then cached, or, when the bucket refuses the write, the handler raises with the report sent and the cache unchanged |
| Handler.ProcessFailFast | index.py:234-237 | after the first exception the later items change nothing |
| Handler.ProcessStep | index.py:234-237 | one more item extends the loop by one loop body |
| Handler.HandleWork | index.py:235-237 | the loop body upserts and then sends only for a changed item, as the specification step says |
| Handler.RecordWork | index.py:236-237 | the body for a changed item ends as the specification Record says: the row is upserted first; a refused UPSERT raises before anything is sent; a notification that raises leaves the row written and nothing sent |
| Handler.HandleWorks | index.py:234-237 | the loop equals the specification Process and applies its writes and sends in order |
| Handler.TryBlock | index.py:229-237 | the `try` block equals the specification Attempt |
| Handler.Invoke | index.py:223-247 | `main` on the live services ends in the state and completion that Run gives |
| Guarantees.Changed | index.py:234-235 | the changed items are a subsequence of the list, in list order, no longer than it |
| Guarantees.ChangedExactly | index.py:234-235 | every listed item is one for which check_work returns True, and every such item of the list is listed |
| Guarantees.StepAnnounces | index.py:235-237 | one loop body on an unchanged item adds nothing; on a changed item it adds that item's row as the next write and, unless it raises, its notification as the next send; a refused UPSERT adds neither |
| Guarantees.ProcessChecksAll | index.py:234-235 | a loop that raised nothing ran check_work on every item without error |
| Guarantees.ProcessSucceeds | index.py:234-237 | a loop that raised nothing checked every item; the k-th write is the row of the k-th changed item and the k-th send its notification, and there are no other writes or sends |
| Guarantees.ProcessRaised | index.py:234-238 | a loop that raised at item i is the loop over the first i+1 items; it announced exactly the changed items before i; a leftover write is the row of item i, whose notification raised |
| Guarantees.ProcessQuietWhenUnchanged | index.py:234-237 | when no status changed, nothing is written and nothing is sent |
| Guarantees.WritesPrecedeSends | index.py:235-237 | for some prefix of the list, the k-th write is the row of its k-th changed item and the k-th send that item's notification; at most one write has no send, and then the loop raised |
| Guarantees.AttemptWritesPrecedeSends | index.py:229-237 | when the answer is valid and the snapshot is read, the writes and sends of the `try` block are the rows and notifications of the changed items of a prefix of the fetched `homeworks`, checked against the snapshot of the table; a failure before the loop writes and sends nothing |
| Guarantees.QuietAttempt | index.py:229-237 | a `try` block that wrote nothing sent nothing |
| Guarantees.EmptyBucketStops | index.py:56-65 | with an empty bucket every invocation raises and changes nothing, so any number of invocations leave the world as it was |
| Guarantees.RepeatIsQuiet | index.py:238-243 | after a failure raised before any write has been reported and cached, a later invocation whose failure has the same text changes nothing, whatever else differs in its inputs |
| Guarantees.RepeatedFailure | index.py:229-247 | N invocations, each with its own inputs, that meet failures with the same text before any write send the report at most once and write the cache once |
| Guarantees.ReportIsNotDefault | index.py:58 | no report equals the NUL default, so the first failure after the cache object went missing is sent |
| Guarantees.NewFailureReported | index.py:238-243 | a failure of the bot's own kinds, other than a cached failure of those kinds, is always sent after the loop's notifications |

## Left out

- Logging (`logger` setup and every call): it has no effect on behaviour.
- The YDB driver, the session pool, the SQL text and `retry_operation_sync`: the table is a sequence of rows keyed by `id`, and the final outcome of each retried transaction is an input.
- The snapshot query's row limit and the order in which YDB returns rows: the snapshot folds the rows in the table's order.
- Store.RowOf: keys the row by `str()` of the id, as the unquoted id in the SQL text does, and stores `str()` of each text column. It does not model quoting or escaping in the SQL text, an id whose text is not a valid SQL literal, nor bytes versus text columns.
- The boto3 client: the bucket is a map from key to text, and reachability for reads and writes is an input. The listing loop of `read_s3` is a lookup, since keys are unique. `list_objects` returns at most 1000 keys, so the model assumes the bucket holds at most 1000 objects: past that, a cached report outside the first page would read as the NUL default. UTF-8 decoding is not modelled.
- `requests.get`, the headers, and `.json()`: the reply is an input, either a transport error or a status code with a decoded JSON body. A body that is not JSON is not modelled.
- The Telegram client: whether a text is accepted is an input. The exception text of a failed send is only logged, so it is not modelled.
- `check_tokens` and the guard in `main`: the guard is always passing (see above). `CriticalException` is modelled only for its text.
- `os.getenv`, `HEADERS` and the endpoint settings: the endpoint is an input.
- Floating-point numbers in JSON: not modelled.
- PyJson.Repr: uses single quotes for strings and does not model Python's escaping or its choice of double quotes.
- Builtin failures: their texts follow CPython 3.11 to 3.13.
- Exceptions.TextInjective: holds only for the seven kinds the repository defines. Interpreter and driver exception texts are arbitrary.
- Guarantees.RepeatedFailure: covers failures raised before any write. A failure after writes can change the snapshot and therefore the next invocation.
