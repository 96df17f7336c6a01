/** The bot's exception taxonomy and the text `str(exc)` gives for each kind.
    The error deduplication compares these texts, so two failures are treated
    as "the same error" exactly when their texts are equal. */
module Exceptions {
  import opened Text
  import opened PyJson

  datatype Failure =
    /** A required environment variable is missing. */
    | Critical(variable: string)
    /** The API answered with a status other than 200. */
    | ResponseCode(code: int, endpoint: string)
    /** A value of the answer has the wrong Python type. */
    | FieldType(expected: PyType, received: PyType)
    /** A required key is absent. */
    | Field(item: string)
    /** The answer holds no homework. */
    | EmptyField
    /** The chat client failed; the text is that of the client's own exception. */
    | SendMessage(telegramError: string)
    /** The request to the API failed; the text is that of the HTTP library's exception. */
    | SendRequest(requestError: string)
    /** A TypeError raised by the Python interpreter itself; the text is its message. */
    | Builtin(message: string)
    /** An exception of the database driver; the text is its message. */
    | Driver(message: string)
  {
    /** The kinds the repository defines itself, as opposed to exceptions
        raised by the interpreter or a driver, whose texts are arbitrary. */
    predicate Own()
    {
      !Builtin? && !Driver?
    }

    /** `str(exc)`: a fixed lead text for the kind followed by the values the
        exception was built with. */
    function Text(): string
    {
      Lead() + Tail()
    }

    /** The fixed part at the start of the text (long texts are written in two
        pieces only to keep the prover's work on literals small). */
    function Lead(): string
    {
      match this
      case Critical(_) => "Отсутствует обязательная " + "переменная окружения: "
      case ResponseCode(_, _) => "Эндпоинт: "
      case FieldType(_, _) => "Неправильный формат " + "ответа эндпоинта, должен быть "
      case Field(_) => "В ответе отсутствую " + "обязательные поля: "
      case EmptyField => "Список работ пуст"
      case SendMessage(_) => "При отправке сообщения " + "возникла ошибка: "
      case SendRequest(_) => "При запросе к эндпоинту " + "возникла ошибка: "
      case Builtin(_) => ""
      case Driver(_) => ""
    }

    /** The part of the text built from the exception's arguments. */
    function Tail(): string
    {
      match this
      case Critical(v) => v
      case ResponseCode(c, e) => e + CodeClause(c) + " " + IntText(c)
      case FieldType(x, y) => x.Text() + " а пришел: " + y.Text()
      case Field(item) => item
      case EmptyField => ""
      case SendMessage(e) => e
      case SendRequest(e) => e
      case Builtin(m) => m
      case Driver(m) => m
    }

    /** The first character of the text of each of the repository's own kinds;
        the two kinds starting with "При" differ at index 4. */
    function Marks(): (char, char)
      requires Own()
    {
      match this
      case Critical(_) => ('О', ' ')
      case ResponseCode(_, _) => ('Э', ' ')
      case FieldType(_, _) => ('Н', ' ')
      case Field(_) => ('В', ' ')
      case EmptyField => ('С', ' ')
      case SendMessage(_) => ('П', 'о')
      case SendRequest(_) => ('П', 'з')
    }
  }

  /** What stands between the endpoint and the code: a 404 reads as "unavailable",
      any other code as "answered with code". */
  function CodeClause(code: int): string
  {
    if code == 404 then " недоступен. Код ответа API:" else " ответил с кодом:"
  }

  /** The text the handler sends and caches for a failure. */
  function Report(f: Failure): string
  {
    "Сбой в работе программы: " + f.Text()
  }

  lemma MarksOf(p: string, x: string)
    requires |p| >= 5
    ensures (p + x)[0] == p[0] && (p + x)[4] == p[4]
  {
  }

  lemma TextMarks(f: Failure)
    requires f.Own()
    ensures |f.Text()| >= 5
    ensures var t := f.Text(); (t[0], if t[0] == 'П' then t[4] else ' ') == f.Marks()
  {
    MarksOf(f.Lead(), f.Tail());
    match f
    case Critical(_) =>
    case ResponseCode(_, _) =>
    case FieldType(_, _) =>
    case Field(_) =>
    case EmptyField =>
    case SendMessage(_) =>
    case SendRequest(_) =>
  }

  /** These characters tell the repository's own kinds apart. */
  lemma MarksDiffer(a: Failure, b: Failure)
    requires a.Own() && b.Own()
    requires a.Marks() == b.Marks()
    ensures a.Critical? == b.Critical? && a.ResponseCode? == b.ResponseCode?
    ensures a.FieldType? == b.FieldType? && a.Field? == b.Field? && a.EmptyField? == b.EmptyField?
    ensures a.SendMessage? == b.SendMessage? && a.SendRequest? == b.SendRequest?
  {
  }

  /** The class name at index 8 of `<class '...'>` tells the types apart. */
  lemma TypeTextInjective(x: PyType, y: PyType, rx: string, ry: string)
    requires x.Text() + rx == y.Text() + ry
    ensures x == y
  {
    assert (x.Text() + rx)[8] == x.Name()[0];
    assert (y.Text() + ry)[8] == y.Name()[0];
  }

  /** Two failures of the same kind with the same text have the same arguments' text. */
  lemma SameTail(a: Failure, b: Failure)
    requires a.Lead() == b.Lead() && a.Text() == b.Text()
    ensures a.Tail() == b.Tail()
  {
    CancelPrefix(a.Lead(), a.Tail(), b.Tail());
  }

  lemma Regroup(a: string, m: string, b: string)
    ensures a + m + b == a + (m + b)
  {
  }

  lemma ResponseCodeTextInjective(c: int, e: string, c': int, e': string)
    requires ResponseCode(c, e).Text() == ResponseCode(c', e').Text()
    ensures c == c' && e == e'
  {
    SameTail(ResponseCode(c, e), ResponseCode(c', e'));
    IntTextHasNoSpace(c);
    IntTextHasNoSpace(c');
    SplitAtLastSpace(e + CodeClause(c), IntText(c), e' + CodeClause(c'), IntText(c'));
    IntTextInjective(c, c');
    CancelSuffix(e, e', CodeClause(c));
  }

  lemma FieldTypeTextInjective(x: PyType, y: PyType, x': PyType, y': PyType)
    requires FieldType(x, y).Text() == FieldType(x', y').Text()
    ensures x == x' && y == y'
  {
    SameTail(FieldType(x, y), FieldType(x', y'));
    var m := " а пришел: ";
    var tx, ty, tx', ty' := x.Text(), y.Text(), x'.Text(), y'.Text();
    Regroup(tx, m, ty);
    Regroup(tx', m, ty');
    TypeTextInjective(x, x', m + ty, m + ty');
    CancelPrefix(tx, m + ty, m + ty');
    CancelPrefix(m, ty, ty');
    TypeTextInjective(y, y', [], []);
  }

  /** Two of the repository's own failures have the same text only when they
      are the same failure: the deduplicator never confuses two different errors
      of these kinds. */
  lemma TextInjective(a: Failure, b: Failure)
    requires a.Own() && b.Own()
    requires a.Text() == b.Text()
    ensures a == b
  {
    TextMarks(a);
    TextMarks(b);
    MarksDiffer(a, b);
    match a
    case Critical(_) => SameTail(a, b);
    case ResponseCode(c, e) =>
      ResponseCodeTextInjective(c, e, b.code, b.endpoint);
    case FieldType(x, y) =>
      FieldTypeTextInjective(x, y, b.expected, b.received);
    case Field(_) => SameTail(a, b);
    case EmptyField =>
    case SendMessage(_) => SameTail(a, b);
    case SendRequest(_) => SameTail(a, b);
  }

  /** The same holds for the report the handler sends and caches. */
  lemma ReportInjective(a: Failure, b: Failure)
    requires a.Own() && b.Own()
    requires Report(a) == Report(b)
    ensures a == b
  {
    CancelPrefix("Сбой в работе программы: ", a.Text(), b.Text());
    TextInjective(a, b);
  }
}
