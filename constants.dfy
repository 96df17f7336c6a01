/** The fixed tables of the bot (constants.py), without the values read from
    the environment. */
module Constants {

  /** HTTPStatus.OK */
  const StatusOk: int := 200

  /** Keys of the API answer. */
  const Homeworks: string := "homeworks"
  const CurrentDate: string := "current_date"
  const ResponseKeys: seq<string> := [Homeworks, CurrentDate]

  /** Keys of one homework that change detection needs, status first. */
  const Status: string := "status"
  const HomeworkName: string := "homework_name"
  const ParseKeys: seq<string> := [Status, HomeworkName]

  /** How one field of a homework turns into a sentence of the notification:
      a fixed prefix before the value, or a table of fixed sentences per value. */
  datatype MessageRule =
    | Prefixed(prefix: string)
    | Verdicts(table: seq<(string, string)>)

  const LessonName: string := "lesson_name"
  const ReviewerComment: string := "reviewer_comment"

  const Approved: string := "Работа проверена: ревьюеру всё понравилось. Ура!"
  const Reviewing: string := "Работа взята на проверку ревьюером."
  const Rejected: string := "Работа проверена: у ревьюера есть замечания."
  const VerdictTable: seq<(string, string)> :=
    [("approved", Approved), ("reviewing", Reviewing), ("rejected", Rejected)]

  const LessonPrefix: string := "Изменился статус проверки работы -"
  const CommentPrefix: string := "Комментарий ревьюера:"

  /** The notification's fields in the order they appear in the message. */
  const MessageKeys: seq<(string, MessageRule)> := [
    (LessonName, Prefixed(LessonPrefix)),
    (Status, Verdicts(VerdictTable)),
    (ReviewerComment, Prefixed(CommentPrefix))
  ]

  /** The columns of one database row, in the order of the UPSERT. */
  const WriteFields: seq<string> :=
    ["id", Status, HomeworkName, ReviewerComment, "date_updated", LessonName]

  /** The object of the storage bucket that caches the last error text. */
  const CacheKey: string := "message"

  /** What `read_s3` returns when the bucket has no cached text: one NUL character. */
  const NoCachedText: string := "\0"

  /** The longest text the chat accepts. */
  const MaxMessage: nat := 255
}
