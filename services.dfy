/** The three outside services `main` changes: the YDB table of works, the
    Object Storage bucket that caches the last error report, and the Telegram
    chat. Each is an object whose state its methods update in place; the
    failures of the drivers behind them are inputs. */
module Services {
  import opened Wrappers
  import opened Exceptions
  import opened Constants
  import opened Store

  /** The `works` table. */
  class Database {
    var rows: seq<Row>

    constructor (rows: seq<Row>)
      ensures this.rows == rows
    {
      this.rows := rows;
    }

    /** `write_work_in_db`: one UPSERT keyed by `id`; `refusal` is the driver
        error that the retried transaction finally ends with, if any. */
    method Upsert(row: Row, refusal: Option<string>) returns (failure: Option<Failure>)
      modifies this
      ensures refusal.Some? ==> failure == Some(Driver(refusal.value)) && rows == old(rows)
      ensures refusal.None? ==> failure.None? && rows == Upserted(old(rows), row)
    {
      if refusal.Some? {
        return Some(Driver(refusal.value));
      }
      rows := Upserted(rows, row);
      return None;
    }

    /** `get_works_from_db`: fold the rows, in table order, into a map from
        homework name to status; a later row with the same name wins. */
    method Snapshot(refusal: Option<string>) returns (r: Result<map<string, string>, Failure>)
      ensures refusal.Some? ==> r == Err(Driver(refusal.value))
      ensures refusal.None? ==> r == Ok(Collapse(rows))
    {
      if refusal.Some? {
        return Err(Driver(refusal.value));
      }
      var parse := map[];
      for i := 0 to |rows|
        invariant parse == Collapse(rows[..i])
      {
        assert rows[..i + 1][..i] == rows[..i];
        parse := parse[rows[i].name := rows[i].status];
      }
      assert rows[..|rows|] == rows;
      return Ok(parse);
    }
  }

  /** What `read_s3` yields: nothing when the bucket cannot be listed (it is
      unreachable, or empty so that the listing has no `Contents`), otherwise
      the cached text or the NUL default when no object has the key. */
  function CachedMessage(objects: map<string, string>, reachable: bool): (r: Option<string>)
    ensures r.None? <==> !reachable || |objects| == 0
    ensures r.Some? && CacheKey !in objects ==> r.value == NoCachedText
  {
    if !reachable || |objects| == 0 then None
    else if CacheKey in objects then Some(objects[CacheKey])
    else Some(NoCachedText)
  }

  /** The bucket, as a map from object key to object text. */
  class Bucket {
    var objects: map<string, string>

    constructor (objects: map<string, string>)
      ensures this.objects == objects
    {
      this.objects := objects;
    }

    /** `read_s3(S3_FIELDS['MESSAGE'])`; None stands for the exception it raises. */
    method ReadCachedMessage(reachable: bool) returns (r: Option<string>)
      ensures r == CachedMessage(objects, reachable)
      ensures r.Some? && CacheKey in objects ==> r.value == objects[CacheKey]
    {
      if !reachable || |objects| == 0 {
        return None;
      }
      var text := NoCachedText;
      if CacheKey in objects {
        text := objects[CacheKey];
      }
      return Some(text);
    }

    /** `write_s3(S3_FIELDS['MESSAGE'], text)`; false stands for the exception
        `put_object` raises when the bucket cannot be written. */
    method WriteCachedMessage(text: string, reachable: bool) returns (written: bool)
      modifies this
      ensures written == reachable
      ensures objects == if reachable then old(objects)[CacheKey := text] else old(objects)
    {
      if !reachable {
        return false;
      }
      objects := objects[CacheKey := text];
      return true;
    }
  }

  /** `message[:255]`: at most 255 characters, a prefix of the message, and
      the message itself when it is short enough. */
  function Truncate(message: string): (r: string)
    ensures |r| <= MaxMessage && r <= message
    ensures |message| <= MaxMessage ==> r == message
    ensures |message| > MaxMessage ==> |r| == MaxMessage
  {
    if |message| <= MaxMessage then message else message[..MaxMessage]
  }

  /** What one `send_message` call adds to the chat: the truncated text if
      Telegram takes it, nothing if the call fails (the error is only logged). */
  function Delivery(message: string, accepts: string -> bool): (r: seq<string>)
    ensures |r| <= 1
    ensures |r| == 1 <==> accepts(Truncate(message))
    ensures |r| == 1 ==> r[0] == Truncate(message) && r[0] <= message && |r[0]| <= MaxMessage
  {
    var text := Truncate(message);
    if accepts(text) then [text] else []
  }

  /** The chat, as the sequence of texts delivered to it. */
  class Chat {
    var delivered: seq<string>

    constructor (delivered: seq<string>)
      ensures this.delivered == delivered
    {
      this.delivered := delivered;
    }

    /** `send_message(bot, message)`: never raises. */
    method SendMessage(message: string, accepts: string -> bool)
      modifies this
      ensures delivered == old(delivered) + Delivery(message, accepts)
    {
      var text := message;
      if |text| > MaxMessage {
        text := text[..MaxMessage];
      }
      if accepts(text) {
        delivered := delivered + [text];
      }
    }
  }
}
