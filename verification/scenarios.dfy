/**
 The loop on concrete API replies: a status change, the same status twice,
 an empty homework list, an unknown status, a homework without a name, a
 request that keeps timing out, and a reply whose date lies before the
 current window.
 */
module Scenarios {
  import opened PyValues
  import opened Exceptions
  import opened Homework
  import opened PollLoop
  import opened LoopFacts

  function Record(name: string, status: string): Json {
    JDict([Member("homework_name", JStr(name)), Member("status", JStr(status))])
  }

  function Reply(date: int, homeworks: seq<Json>): Json {
    JDict([Member("current_date", JInt(date)), Member("homeworks", JList(homeworks))])
  }

  /** The expected message, written as the words around the name. */
  const ApprovedHw1: string :=
    "Изменился статус проверки работы \"" + "hw1" + "\". " + "Работа проверена: ревьюеру всё понравилось. Ура!"

  lemma RecordFields(name: string, status: string)
    ensures Lookup(Record(name, status).members, "homework_name") == Some(JStr(name))
    ensures Lookup(Record(name, status).members, "status") == Some(JStr(status))
  {
    var members := Record(name, status).members;
    assert members[0].key != "status" by { assert "homework_name"[0] != "status"[0]; }
    assert members[1..] == [Member("status", JStr(status))];
  }

  lemma ReplyFields(date: int, homeworks: seq<Json>)
    ensures Field(Reply(date, homeworks), "current_date") == Some(JInt(date))
    ensures Field(Reply(date, homeworks), "homeworks") == Some(JList(homeworks))
  {
    var members := Reply(date, homeworks).members;
    assert members[0].key != "homeworks" by { assert "current_date"[0] != "homeworks"[0]; }
    assert members[1..] == [Member("homeworks", JList(homeworks))];
    assert Lookup(members[1..], "homeworks") == Some(JList(homeworks));
  }

  /** The translator on a record named "hw1" with status "approved". */
  lemma ParseStatusApproved()
    ensures ParseStatus(Record("hw1", "approved").members) == Success(ApprovedHw1)
  {
    RecordFields("hw1", "approved");
    var verdict := "Работа проверена: ревьюеру всё понравилось. Ура!";
    assert Verdicts["approved"] == verdict;
  }

  /** An approved homework: one status message, and the window moves to the
      reply's date. */
  lemma ApprovedReplyIsAnnounced(s: State)
    ensures Step(s, Success(Reply(1700000100, [Record("hw1", "approved")])))
              == Cycle(State(JInt(1700000100), s.lastError), [ApprovedHw1])
  {
    var record := Record("hw1", "approved");
    var reply := Reply(1700000100, [record]);
    RecordFields("hw1", "approved");
    ReplyFields(1700000100, [record]);
    ParseStatusApproved();
    assert ValidResponse(reply);
    StepOnSuccess(s, reply);
  }

  /** The same approved reply twice in a row: the status message is sent
      both times, because status messages are never compared with earlier
      ones. */
  lemma SameStatusSentTwice(s: State)
    ensures var reply := Success(Reply(1700000100, [Record("hw1", "approved")]));
            Run(s, [reply, reply]).sent == [ApprovedHw1, ApprovedHw1]
  {
    var reply := Success(Reply(1700000100, [Record("hw1", "approved")]));
    var s1 := State(JInt(1700000100), s.lastError);
    ApprovedReplyIsAnnounced(s);
    ApprovedReplyIsAnnounced(s1);
    var fetches := [reply, reply];
    assert fetches[1..] == [reply];
    assert fetches[1..][1..] == [];
    assert Run(s1, [reply]).sent == [ApprovedHw1] + [];
  }

  /** A valid reply whose first homework has no name: the translator's
      error is the one reported, and the window stays. */
  lemma NamelessRecordIsReported(s: State)
    ensures var record := JDict([Member("status", JStr("approved"))]);
            var c := Step(s, Success(Reply(1700000400, [record])));
            var report := "Сбой в работе программы: " + "Отсутствует инфо о названии домашки!";
            && c.state == State(s.timestamp, report)
            && (c.sent == [report] <==> s.lastError != report)
  {
    var record := JDict([Member("status", JStr("approved"))]);
    var reply := Reply(1700000400, [record]);
    ReplyFields(1700000400, [record]);
    assert Lookup(record.members, "status") == Some(JStr("approved"));
    assert Lookup(record.members, "homework_name") == None;
    assert CheckResponse(reply).Success?;
    StepOnFailure(s, Success(reply));
  }

  /** An empty homework list is an error: the window stays and the error is
      reported unless it was the last one reported. */
  lemma EmptyListIsReported(s: State)
    ensures var c := Step(s, Success(Reply(1700000200, [])));
            var report := "Сбой в работе программы: " + "Отсутствует информация о домашней работе!";
            && c.state == State(s.timestamp, report)
            && (c.sent == [report] <==> s.lastError != report)
  {
    var reply := Reply(1700000200, []);
    ReplyFields(1700000200, []);
    assert CheckResponse(reply) == Failure(Exc(EmptyValue, EmptyHomeworks));
    StepOnFailure(s, Success(reply));
  }

  /** An unknown status is an error: the window stays and the error is
      reported unless it was the last one reported. */
  lemma UnknownStatusIsReported(s: State)
    ensures var c := Step(s, Success(Reply(1700000300, [Record("hw1", "pending")])));
            var report := "Сбой в работе программы: " + "Отсутствует валидный статус домашки!";
            && c.state == State(s.timestamp, report)
            && (c.sent == [report] <==> s.lastError != report)
  {
    var record := Record("hw1", "pending");
    var reply := Reply(1700000300, [record]);
    RecordFields("hw1", "pending");
    ReplyFields(1700000300, [record]);
    assert "pending" !in Verdicts;
    assert CheckResponse(reply) == Failure(Exc(InvalidStatus, UnknownStatus));
    StepOnFailure(s, Success(reply));
  }

  /** Two timed-out requests in a row right after start-up: one report. */
  lemma TimeoutTwiceReportedOnce(now: int)
    ensures var s := State(JInt(now - RetryPeriod), "");
            var timedOut := GetApiAnswer(RequestFailed);
            var report := "Сбой в работе программы: " + "Response должен быть словарем!";
            Run(s, [timedOut, timedOut]) == Cycle(State(s.timestamp, report), [report])
  {
    var s := State(JInt(now - RetryPeriod), "");
    var timedOut := GetApiAnswer(RequestFailed);
    assert timedOut == Success(JNull);
    assert Attempt(s.timestamp, timedOut) == Failure(Exc(TypeError, ResponseNotDict));
    assert Alert(Exc(TypeError, ResponseNotDict)) != "";
    assert Alert(Exc(TypeError, ResponseNotDict)) == "Сбой в работе программы: " + "Response должен быть словарем!";
    RepeatedFailureReportedOnce(s, timedOut, 2);
    assert seq(2, _ => timedOut) == [timedOut, timedOut];
  }

  /** The reply's date is taken as it is: a date before the current window
      moves the window back. */
  lemma WindowCanMoveBack()
    ensures var s := State(JInt(1700000100), "");
            Step(s, Success(Reply(1700000000, [Record("hw1", "reviewing")]))).state.timestamp
              == JInt(1700000000)
  {
    var record := Record("hw1", "reviewing");
    var reply := Reply(1700000000, [record]);
    RecordFields("hw1", "reviewing");
    ReplyFields(1700000000, [record]);
    assert ValidResponse(reply);
    StepOnSuccess(State(JInt(1700000100), ""), reply);
  }
}
