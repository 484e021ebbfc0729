/**
 The bot's main loop as a state machine. The state is the poll window start
 sent as `from_date` and the text of the last error reported to the chat;
 one cycle takes the outcome of the API request and yields the next state
 and the messages handed to the chat, in order. Sending never fails from the
 loop's point of view, so a sent message is one appended to that list.
 */
module PollLoop {
  import opened PyValues
  import opened Exceptions
  import opened Homework

  const StartupMessage: string := "Бот включен."

  /** The opening of every error report. */
  const AlertPrefix: string := "Сбой в работе программы: "

  datatype State = State(timestamp: Json, lastError: string)

  /** The state after a stretch of the loop and the messages sent during it. */
  datatype Cycle = Cycle(state: State, sent: seq<string>)

  /** An error report, as opposed to the startup or a status message. */
  predicate IsAlert(message: string) {
    AlertPrefix <= message
  }

  /** The report of an exception caught at the end of a cycle. */
  function Alert(e: Exc): (m: string)
    ensures IsAlert(m) && |m| > 0
    ensures m[|AlertPrefix|..] == e.message
  {
    AlertPrefix + e.message
  }

  /** The query parameters of the state's next API request. */
  function Query(s: State): (q: seq<Member>)
    ensures Lookup(q, "from_date") == Some(s.timestamp)
  {
    [Member("from_date", s.timestamp)]
  }

  /** Start-up: the credentials are checked (a failure ends the process
      with `InvalidTokens`), the first window starts one retry period before
      now, the startup message is sent and no error has been reported yet.
      `now` is the clock reading truncated to whole seconds. */
  function Start(cfg: Config, now: int): (r: Result<Cycle>)
    ensures r.Success? <==> Truthy(cfg.practicumToken) && Truthy(cfg.telegramToken) && Truthy(cfg.chatId)
    ensures r.Failure? ==> r.error == Exc(InvalidTokens, MissingTokens)
    ensures r.Success? ==> r.value.state == State(JInt(now - RetryPeriod), "")
    ensures r.Success? ==> r.value.sent == [StartupMessage] && !IsAlert(StartupMessage)
  {
    var ok :- CheckTokens(cfg);
    if !ok then Failure(Exc(OtherError("SystemExit"), ""))
    else Success(Cycle(State(JInt(now - RetryPeriod), ""), [StartupMessage]))
  }

  /** What the body of one cycle's `try` block achieves when nothing is
      raised: the new window start and the messages sent. */
  datatype Progress = Progress(timestamp: Json, sent: seq<string>)

  /** The fetch outcome gets a cycle's `try` block through to the end: a
      valid reply whose first homework has a name. */
  predicate Completes(fetched: Result<Json>) {
    && fetched.Success?
    && ValidResponse(fetched.value)
    && Field(FirstRecord(fetched.value), "homework_name").Some?
  }

  /** The `try` block of one cycle: validate the fetched reply, translate the
      record it returns, send the result and move the window to the reply's
      date. The record always holds a known status, so it is never empty,
      the `len(homeworks) > 0` test always passes, and the translator can
      only fail for a missing name: the exception that escapes is the
      fetch's, else the validator's, else that one. */
  function Attempt(timestamp: Json, fetched: Result<Json>): (r: Result<Progress>)
    ensures r.Success? <==> Completes(fetched)
    ensures r.Success? ==>
              var response := fetched.value;
              var record := FirstRecord(response);
              r.value == Progress(Field(response, "current_date").value,
                                  [StatusMessage(Str(Field(record, "homework_name").value),
                                                 Field(record, "status").value.s)])
    ensures r.Failure? ==>
              r.error == (if fetched.Failure? then fetched.error
                          else if CheckResponse(fetched.value).Failure? then CheckResponse(fetched.value).error
                          else Exc(EmptyValue, NoHomeworkName))
  {
    var response :- fetched;
    var homework :- CheckResponse(response);
    if |homework| > 0 then
      var message :- ParseStatus(homework);
      Success(Progress(Get(response.members, "current_date"), [message]))
    else
      Success(Progress(timestamp, []))
  }

  /** One cycle of the loop. When the `try` block completes, its progress is
      kept. Otherwise the window stays where it was and the caught error is
      reported, unless its report is the last one sent, which is not repeated.
      The sleep between cycles is not part of the state. */
  function Step(s: State, fetched: Result<Json>): (c: Cycle)
    ensures |c.sent| <= 1
    ensures c.state.timestamp != s.timestamp ==>
              fetched.Success? && ValidResponse(fetched.value)
              && c.state.timestamp == Field(fetched.value, "current_date").value
    ensures c.state.lastError != s.lastError ==> c.sent == [c.state.lastError]
    ensures forall m :: m in c.sent && IsAlert(m) ==> m != s.lastError && m == c.state.lastError
    ensures forall m :: m in c.sent && !IsAlert(m) ==>
              Attempt(s.timestamp, fetched).Success? && c.state.lastError == s.lastError
  {
    match Attempt(s.timestamp, fetched)
    case Success(p) =>
      StatusIsNotAlert(p.sent);
      Cycle(State(p.timestamp, s.lastError), p.sent)
    case Failure(e) =>
      var report := Alert(e);
      if report != s.lastError then Cycle(State(s.timestamp, report), [report])
      else Cycle(s, [])
  }

  /** A status message cannot be mistaken for an error report. */
  lemma StatusIsNotAlert(sent: seq<string>)
    requires forall m :: m in sent ==> StatusHeader <= m
    ensures forall m :: m in sent ==> !IsAlert(m)
  {
    forall m | m in sent
      ensures !IsAlert(m)
    {
      assert m[0] == StatusHeader[0] == 'И';
      assert AlertPrefix[0] == 'С';
    }
  }

  /** One cycle including the API request. `answer` is how the server and
      the network respond to a request with the given query parameters. */
  function Poll(s: State, answer: seq<Member> -> Exchange): (c: Cycle)
    ensures var ex := answer(Query(s));
            ex.RequestFailed? ==>
              && c.state == State(s.timestamp, AlertPrefix + ResponseNotDict)
              && (c.sent == [] <==> s.lastError == AlertPrefix + ResponseNotDict)
    ensures var ex := answer(Query(s));
            ex.Answered? && ex.statusCode != HttpOk ==>
              && c.state == State(s.timestamp, AlertPrefix + EndpointDown)
              && (c.sent == [] <==> s.lastError == AlertPrefix + EndpointDown)
    ensures var ex := answer(Query(s));
            (ex.ConnectionDropped? || (ex.Raised? && ex.error.kind.ConnectionError?)) ==>
              && c.state == State(s.timestamp, AlertPrefix + ConnectionTrouble)
              && (c.sent == [] <==> s.lastError == AlertPrefix + ConnectionTrouble)
  {
    Step(s, GetApiAnswer(answer(Query(s))))
  }

  /** The loop run over a sequence of fetch outcomes, one per cycle: at most
      one message is sent per cycle. */
  function Run(s: State, fetches: seq<Result<Json>>): (c: Cycle)
    ensures |c.sent| <= |fetches|
    decreases |fetches|
  {
    if |fetches| == 0 then Cycle(s, [])
    else
      var first := Step(s, fetches[0]);
      var rest := Run(first.state, fetches[1..]);
      Cycle(rest.state, first.sent + rest.sent)
  }
}
