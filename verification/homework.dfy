/**
 The pure rules of the homework-status bot: the verdict table, the
 credential check, what one API request yields, the validation of an API
 reply and the translation of a homework record into a chat message.
 */
module Homework {
  import opened PyValues
  import opened Exceptions

  /** Seconds between two polls, and the look-back of the first poll. */
  const RetryPeriod: int := 600

  /** The HTTP status an API reply must carry. */
  const HttpOk: int := 200

  /** The closed table of review statuses and the text reported for each. */
  const Verdicts: map<string, string> := map[
    "approved" := "Работа проверена: ревьюеру всё понравилось. Ура!",
    "reviewing" := "Работа взята на проверку ревьюером.",
    "rejected" := "Работа проверена: у ревьюера есть замечания."
  ]

  /** The opening of every status message, up to the homework's name. */
  const StatusHeader: string := "Изменился статус проверки работы \""

  // The texts the bot's own exceptions are raised with.
  const MissingTokens: string := "Отсутствуют токены!"
  const EndpointDown: string := "ENDPOINT недоступен!"
  const ConnectionTrouble: string := "Проблема с соединением!"
  const ResponseNotDict: string := "Response должен быть словарем!"
  const NoCurrentDate: string := "Отсутствует информация о дате домашки!"
  const NoHomeworks: string := "Отсутствует информация о домашке!"
  const HomeworksNotList: string := "Homeworks должен быть списком!"
  const HomeworkNotDict: string := "Элемент списка Homeworks должен быть словарем!"
  const NoStatus: string := "Отстутствует статус домашки!"
  const UnknownStatus: string := "Отсутствует валидный статус домашки!"
  const EmptyHomeworks: string := "Отсутствует информация о домашней работе!"
  const NoHomeworkName: string := "Отсутствует инфо о названии домашки!"
  const BadStatus: string := "Отсутствует валидный статус!"

  /** The settings read from the environment; a missing variable is None. */
  datatype Config = Config(
    practicumToken: Option<string>,
    telegramToken: Option<string>,
    chatId: Option<string>,
    endpoint: Option<string>)

  /** Python truthiness of an environment value: set and non-empty. */
  predicate Truthy(v: Option<string>) {
    v.Some? && |v.value| > 0
  }

  /** The credential check: the three credentials must all be truthy, and
      otherwise `InvalidTokens` is raised. The endpoint is not looked at. */
  function CheckTokens(cfg: Config): (r: Result<bool>)
    ensures r.Success? <==> Truthy(cfg.practicumToken) && Truthy(cfg.telegramToken) && Truthy(cfg.chatId)
    ensures r.Success? ==> r.value
    ensures r.Failure? ==> r.error == Exc(InvalidTokens, MissingTokens)
  {
    if !(Truthy(cfg.practicumToken) && Truthy(cfg.telegramToken) && Truthy(cfg.chatId)) then
      Failure(Exc(InvalidTokens, MissingTokens))
    else
      Success(true)
  }

  /** The endpoint setting has no influence on the credential check. */
  lemma CheckTokensIgnoresEndpoint(cfg: Config, endpoint: Option<string>)
    ensures CheckTokens(cfg.(endpoint := endpoint)) == CheckTokens(cfg)
  {
  }

  /** How one HTTP request to the API ended. */
  datatype Exchange =
      /** `requests` raised one of its own exceptions (a timeout, a refused
          connection, or, in recent versions, a body that is not JSON) */
    | RequestFailed
      /** the built-in `ConnectionError` was raised */
    | ConnectionDropped
      /** any other exception escaped the request or the decoding; one of
          class `ConnectionError` is caught and raised afresh like
          `ConnectionDropped` */
    | Raised(error: Exc)
      /** the server answered with this status and this decoded body */
    | Answered(statusCode: int, body: Json)

  /** What the API request returns: the decoded body of an OK reply; None
      after a `requests` exception, which is logged and swallowed; and a
      raised exception for any other status or for a connection error. */
  function GetApiAnswer(ex: Exchange): (r: Result<Json>)
    ensures r.Success? <==> ex.RequestFailed? || (ex.Answered? && ex.statusCode == HttpOk)
    ensures r.Success? && ex.RequestFailed? ==> r.value == JNull
    ensures r.Success? && ex.Answered? ==> r.value == ex.body
    ensures ex.Answered? && ex.statusCode != HttpOk ==> r == Failure(Exc(StatusNotOk, EndpointDown))
    ensures ex.ConnectionDropped? ==> r == Failure(Exc(ConnectionError, ConnectionTrouble))
    ensures ex.Raised? && ex.error.kind.ConnectionError? ==>
              r == Failure(Exc(ConnectionError, ConnectionTrouble))
    ensures ex.Raised? && !ex.error.kind.ConnectionError? ==> r == Failure(ex.error)
  {
    match ex
    case RequestFailed => Success(JNull)
    case ConnectionDropped => Failure(Exc(ConnectionError, ConnectionTrouble))
    case Raised(e) =>
      if e.kind.ConnectionError? then Failure(Exc(ConnectionError, ConnectionTrouble))
      else Failure(e)
    case Answered(code, body) =>
      if code != HttpOk then Failure(Exc(StatusNotOk, EndpointDown)) else Success(body)
  }

  /** The status of a record is a known review status. */
  predicate KnownStatus(status: Json) {
    status.JStr? && status.s in Verdicts
  }

  /** `status in HOMEWORK_VERDICTS`: only a string key of the table is in it,
      and testing a list or a dict raises `TypeError`. */
  function InVerdicts(status: Json): (r: Result<bool>)
    ensures r.Failure? <==> !Hashable(status)
    ensures r.Failure? ==> r.error.kind == TypeError
    ensures r.Success? ==> (r.value <==> KnownStatus(status))
  {
    if !Hashable(status) then
      Failure(Exc(TypeError, "unhashable type: '" + TypeName(status) + "'"))
    else
      Success(status.JStr? && status.s in Verdicts)
  }

  /** The reply passes the checks that come before the status check: a dict
      with a date and a non-empty homework list whose first entry is a dict. */
  predicate FirstRecordShaped(response: Json) {
    && Field(response, "current_date").Some?
    && var homeworks := Field(response, "homeworks");
    && homeworks.Some?
    && homeworks.value.JList?
    && |homeworks.value.items| > 0
    && homeworks.value.items[0].JDict?
  }

  /** The first homework of a reply that passes those checks. */
  function FirstRecord(response: Json): Json
    requires FirstRecordShaped(response)
  {
    Field(response, "homeworks").value.items[0]
  }

  /** A reply the validator accepts, stated field by field: a dict with a
      date and a non-empty list of homeworks whose first entry is a dict
      carrying a known status. */
  predicate ValidResponse(response: Json) {
    && FirstRecordShaped(response)
    && Field(FirstRecord(response), "status").Some?
    && KnownStatus(Field(FirstRecord(response), "status").value)
  }

  /** The validator. It checks, in this order, that the reply is a dict,
      that it has a date, that it has a homework list, that the list is a
      list, and then that the list is non-empty and its first entry is a
      dict with a known status, and returns that first entry. */
  function CheckResponse(response: Json): (r: Result<seq<Member>>)
    ensures !response.JDict? ==> r == Failure(Exc(TypeError, ResponseNotDict))
    ensures response.JDict? && !Has(response.members, "current_date") ==>
              r == Failure(Exc(EmptyValue, NoCurrentDate))
    ensures response.JDict? && Has(response.members, "current_date")
            && !Has(response.members, "homeworks") ==>
              r == Failure(Exc(EmptyValue, NoHomeworks))
    ensures response.JDict? && Has(response.members, "current_date")
            && Has(response.members, "homeworks")
            && !Get(response.members, "homeworks").JList? ==>
              r == Failure(Exc(TypeError, HomeworksNotList))
    ensures response.JDict? && Has(response.members, "current_date")
            && Has(response.members, "homeworks")
            && Get(response.members, "homeworks") == JList([]) ==>
              r == Failure(Exc(EmptyValue, EmptyHomeworks))
    ensures response.JDict? && Has(response.members, "current_date")
            && Has(response.members, "homeworks")
            && Get(response.members, "homeworks").JList?
            && |Get(response.members, "homeworks").items| > 0
            && !Get(response.members, "homeworks").items[0].JDict? ==>
              r == Failure(Exc(TypeError, HomeworkNotDict))
    ensures FirstRecordShaped(response) && Field(FirstRecord(response), "status").None? ==>
              r == Failure(Exc(EmptyValue, NoStatus))
    ensures FirstRecordShaped(response) && Field(FirstRecord(response), "status").Some?
            && Hashable(Field(FirstRecord(response), "status").value)
            && !KnownStatus(Field(FirstRecord(response), "status").value) ==>
              r == Failure(Exc(InvalidStatus, UnknownStatus))
    ensures FirstRecordShaped(response) && Field(FirstRecord(response), "status").Some?
            && !Hashable(Field(FirstRecord(response), "status").value) ==>
              r.Failure? && r.error.kind == TypeError
    ensures r.Success? <==> ValidResponse(response)
    ensures r.Success? ==> JDict(r.value) == FirstRecord(response)
    ensures r.Success? ==> Has(r.value, "status") && KnownStatus(Get(r.value, "status"))
  {
    if !response.JDict? then Failure(Exc(TypeError, ResponseNotDict))
    else if !Has(response.members, "current_date") then Failure(Exc(EmptyValue, NoCurrentDate))
    else if !Has(response.members, "homeworks") then Failure(Exc(EmptyValue, NoHomeworks))
    else
      var homeworks := Get(response.members, "homeworks");
      if !homeworks.JList? then Failure(Exc(TypeError, HomeworksNotList))
      else if |homeworks.items| > 0 then
        var first := homeworks.items[0];
        if !first.JDict? then Failure(Exc(TypeError, HomeworkNotDict))
        else if !Has(first.members, "status") then Failure(Exc(EmptyValue, NoStatus))
        else
          var known :- InVerdicts(Get(first.members, "status"));
          if !known then Failure(Exc(InvalidStatus, UnknownStatus))
          else Success(first.members)
      else Failure(Exc(EmptyValue, EmptyHomeworks))
  }

  /** The message reporting a homework's new status. */
  function StatusMessage(name: string, status: string): string
    requires status in Verdicts
  {
    StatusHeader + name + "\". " + Verdicts[status]
  }

  /** The translator. A record without a name raises `EmptyValue`; then a
      record without a status, or with one outside the table, raises
      `InvalidStatus`; otherwise the result is the status message. */
  function ParseStatus(homework: seq<Member>): (r: Result<string>)
    ensures !Has(homework, "homework_name") ==> r == Failure(Exc(EmptyValue, NoHomeworkName))
    ensures Has(homework, "homework_name") && !Has(homework, "status") ==>
              r == Failure(Exc(InvalidStatus, BadStatus))
    ensures Has(homework, "homework_name") && Has(homework, "status")
            && Hashable(Get(homework, "status")) && !KnownStatus(Get(homework, "status")) ==>
              r == Failure(Exc(InvalidStatus, BadStatus))
    ensures Has(homework, "homework_name") && Has(homework, "status")
            && !Hashable(Get(homework, "status")) ==>
              r.Failure? && r.error.kind == TypeError
    ensures r.Success? <==>
              Has(homework, "homework_name") && Has(homework, "status")
              && KnownStatus(Get(homework, "status"))
    ensures r.Success? ==>
              r.value == StatusMessage(Str(Get(homework, "homework_name")), Get(homework, "status").s)
  {
    if !Has(homework, "homework_name") then Failure(Exc(EmptyValue, NoHomeworkName))
    else if !Has(homework, "status") then Failure(Exc(InvalidStatus, BadStatus))
    else
      var known :- InVerdicts(Get(homework, "status"));
      if !known then Failure(Exc(InvalidStatus, BadStatus))
      else
        var name := Get(homework, "homework_name");
        var verdict := Verdicts[Get(homework, "status").s];
        Success(StatusHeader + Str(name) + "\". " + verdict)
  }

  /** `d` with the value of `key` replaced by `v`, where the key is present. */
  function SetValue(members: seq<Member>, key: string, v: Json): seq<Member> {
    if |members| == 0 then []
    else
      var m := members[0];
      [if m.key == key then Member(key, v) else m] + SetValue(members[1..], key, v)
  }

  lemma {:induction false} LookupSetValue(members: seq<Member>, key: string, v: Json, k: string)
    ensures Lookup(SetValue(members, key, v), k) ==
              if k != key then Lookup(members, k)
              else if Lookup(members, k).Some? then Some(v) else None
  {
    if |members| > 0 {
      LookupSetValue(members[1..], key, v, k);
      assert SetValue(members, key, v)[1..] == SetValue(members[1..], key, v);
    }
  }

  /** The validator looks at the first homework only: replacing everything
      after it in the list changes nothing, whether it succeeds or fails. */
  lemma CheckResponseIgnoresLaterHomeworks(response: Json, rest: seq<Json>)
    requires response.JDict?
    requires Field(response, "homeworks").Some?
    requires Field(response, "homeworks").value.JList?
    requires |Field(response, "homeworks").value.items| > 0
    ensures var first := Field(response, "homeworks").value.items[0];
            CheckResponse(JDict(SetValue(response.members, "homeworks", JList([first] + rest))))
              == CheckResponse(response)
  {
    var first := Field(response, "homeworks").value.items[0];
    var members' := SetValue(response.members, "homeworks", JList([first] + rest));
    LookupSetValue(response.members, "homeworks", JList([first] + rest), "current_date");
    LookupSetValue(response.members, "homeworks", JList([first] + rest), "homeworks");
  }

  /** The status message ends with the verdict text: its last two letters
      are those of the verdict. */
  lemma StatusMessageEnding(name: string, status: string)
    requires status in Verdicts
    ensures var m := StatusMessage(name, status);
            var v := Verdicts[status];
            |m| > 2 && |v| > 2 && m[|m| - 1] == v[|v| - 1] && m[|m| - 2] == v[|v| - 2]
  {
  }

  /** No two verdict texts end with the same two letters. */
  lemma VerdictsEndDistinctly(status1: string, status2: string)
    requires status1 in Verdicts && status2 in Verdicts
    requires var v1, v2 := Verdicts[status1], Verdicts[status2];
             |v1| > 2 && |v2| > 2 && v1[|v1| - 1] == v2[|v2| - 1] && v1[|v1| - 2] == v2[|v2| - 2]
    ensures status1 == status2
  {
    var a := Verdicts["approved"];
    var b := Verdicts["reviewing"];
    var c := Verdicts["rejected"];
    assert a[|a| - 1] == '!' && b[|b| - 1] == '.' && c[|c| - 1] == '.';
    assert b[|b| - 2] == 'м' && c[|c| - 2] == 'я';
  }

  /** Equal texts built as head, middle, quote and verdict around two
      middles have equal middles. */
  lemma CancelAround(head: string, x: string, y: string, quote: string, verdict: string)
    requires head + x + quote + verdict == head + y + quote + verdict
    ensures x == y
  {
    var m := head + x + quote + verdict;
    assert |x| == |y|;
    assert x == m[|head|..|head| + |x|];
  }

  /** Two status messages are the same text only when they report the same
      verdict for homeworks whose names print the same: a reader of the chat
      can tell the verdict and the homework from the message. */
  lemma StatusMessageInjective(name1: string, status1: string, name2: string, status2: string)
    requires status1 in Verdicts && status2 in Verdicts
    requires StatusMessage(name1, status1) == StatusMessage(name2, status2)
    ensures status1 == status2
    ensures name1 == name2
  {
    StatusMessageEnding(name1, status1);
    StatusMessageEnding(name2, status2);
    VerdictsEndDistinctly(status1, status2);
    CancelAround(StatusHeader, name1, name2, "\". ", Verdicts[status1]);
  }
}
