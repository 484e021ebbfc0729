/**
 Properties of the poll loop over one cycle and over several cycles in a
 row: what a cycle sends, where it moves the window, and how error reports
 are deduplicated.
 */
module LoopFacts {
  import opened PyValues
  import opened Exceptions
  import opened Homework
  import opened PollLoop

  /** The error reports among the sent messages, in order. */
  function Alerts(sent: seq<string>): seq<string> {
    if |sent| == 0 then []
    else (if IsAlert(sent[0]) then [sent[0]] else []) + Alerts(sent[1..])
  }

  /** No report repeats the one sent just before it, the first counting
      `last` as sent before it. */
  predicate NeverRepeats(last: string, alerts: seq<string>) {
    && (|alerts| > 0 ==> alerts[0] != last)
    && forall i, j :: 0 <= i < |alerts| && 0 <= j < |alerts| && j == i + 1 ==> alerts[i] != alerts[j]
  }

  /** The last report of `alerts`, or `last` when there is none. */
  function LastOr(last: string, alerts: seq<string>): string {
    if |alerts| == 0 then last else alerts[|alerts| - 1]
  }

  lemma {:induction false} AlertsAppend(a: seq<string>, b: seq<string>)
    ensures Alerts(a + b) == Alerts(a) + Alerts(b)
  {
    if |a| > 0 {
      AlertsAppend(a[1..], b);
      assert (a + b)[0] == a[0];
      assert (a + b)[1..] == a[1..] + b;
    } else {
      assert a + b == b;
    }
  }

  /** A cycle whose `try` block completes sends the status message of the
      first homework and moves the window to the reply's date, leaving the
      last reported error alone. */
  lemma StepOnSuccess(s: State, response: Json)
    requires ValidResponse(response)
    requires Field(FirstRecord(response), "homework_name").Some?
    ensures var record := FirstRecord(response);
            Step(s, Success(response)) ==
              Cycle(State(Field(response, "current_date").value, s.lastError),
                    [StatusMessage(Str(Field(record, "homework_name").value),
                                   Field(record, "status").value.s)])
  {
  }

  /** A cycle that raises keeps the window, remembers its own report as the
      last one, and sends that report exactly when it differs from the last. */
  lemma StepOnFailure(s: State, fetched: Result<Json>)
    requires Attempt(s.timestamp, fetched).Failure?
    ensures var report := Alert(Attempt(s.timestamp, fetched).error);
            var c := Step(s, fetched);
            && c.state == State(s.timestamp, report)
            && (c.sent == [report] <==> report != s.lastError)
            && (c.sent == [] <==> report == s.lastError)
  {
  }

  /** A failing cycle asks for the same window again, so against a server
      that answers that request the same way the next cycle fails the same
      way and sends nothing. */
  lemma FailedPollRepeats(s: State, answer: seq<Member> -> Exchange)
    requires Attempt(s.timestamp, GetApiAnswer(answer(Query(s)))).Failure?
    ensures var c := Poll(s, answer);
            && Query(c.state) == Query(s)
            && Poll(c.state, answer) == Cycle(c.state, [])
  {
    var c := Poll(s, answer);
    StepOnFailure(s, GetApiAnswer(answer(Query(s))));
    StepOnFailure(c.state, GetApiAnswer(answer(Query(s))));
  }

  /** The first failing cycle after start-up always sends its report, however
      many completing cycles came before it: start-up remembers no error, and
      those cycles leave that unchanged. */
  lemma FirstErrorIsReported(cfg: Config, now: int, before: seq<Result<Json>>, failing: Result<Json>)
    requires Start(cfg, now).Success?
    requires forall i :: 0 <= i < |before| ==> Completes(before[i])
    requires !Completes(failing)
    ensures var s := Run(Start(cfg, now).value.state, before).state;
            Step(s, failing).sent == [Alert(Attempt(s.timestamp, failing).error)]
  {
    var s0 := Start(cfg, now).value.state;
    SuccessesKeepNoError(s0, before);
    var s := Run(s0, before).state;
    StepOnFailure(s, failing);
  }

  /** A cycle either reports nothing and keeps the last error, or reports
      one new error and remembers it. */
  lemma StepAlerts(s: State, fetched: Result<Json>)
    ensures var c := Step(s, fetched);
            || (Alerts(c.sent) == [] && c.state.lastError == s.lastError)
            || (Alerts(c.sent) == [c.state.lastError] && c.state.lastError != s.lastError)
  {
    var c := Step(s, fetched);
    if |c.sent| == 1 {
      assert c.sent[1..] == [];
      assert c.sent[0] in c.sent;
    }
  }

  lemma NeverRepeatsCons(last: string, mid: string, front: seq<string>, tail: seq<string>)
    requires (front == [] && mid == last) || (front == [mid] && mid != last)
    requires NeverRepeats(mid, tail)
    ensures NeverRepeats(last, front + tail)
    ensures LastOr(last, front + tail) == LastOr(mid, tail)
  {
    if front == [] {
      assert front + tail == tail;
    } else {
      var all := front + tail;
      forall i, j | 0 <= i < |all| && 0 <= j < |all| && j == i + 1
        ensures all[i] != all[j]
      {
        if i == 0 {
          assert all[0] == mid && all[1] == tail[0];
        } else {
          assert all[i] == tail[i - 1] && all[j] == tail[j - 1];
        }
      }
    }
  }

  /** Over any run, no error report repeats the one sent before it (the first
      one differs from the error last reported before the run), and the state
      remembers the last report sent. */
  lemma {:induction false} RunAlertsNeverRepeat(s: State, fetches: seq<Result<Json>>)
    ensures NeverRepeats(s.lastError, Alerts(Run(s, fetches).sent))
    ensures Run(s, fetches).state.lastError == LastOr(s.lastError, Alerts(Run(s, fetches).sent))
    decreases |fetches|
  {
    if |fetches| > 0 {
      var first := Step(s, fetches[0]);
      var rest := Run(first.state, fetches[1..]);
      RunAlertsNeverRepeat(first.state, fetches[1..]);
      AlertsAppend(first.sent, rest.sent);
      StepAlerts(s, fetches[0]);
      NeverRepeatsCons(s.lastError, first.state.lastError, Alerts(first.sent), Alerts(rest.sent));
    }
  }

  /** The same failure repeated cycle after cycle is reported at most once:
      once if its report differs from the last one sent, never otherwise. */
  lemma {:induction false} RepeatedFailureReportedOnce(s: State, fetched: Result<Json>, n: nat)
    requires Attempt(s.timestamp, fetched).Failure?
    ensures var report := Alert(Attempt(s.timestamp, fetched).error);
            var c := Run(s, seq(n, _ => fetched));
            && c.state == (if n > 0 then State(s.timestamp, report) else s)
            && c.sent == (if n > 0 && report != s.lastError then [report] else [])
    decreases n
  {
    if n > 0 {
      var fetches := seq(n, _ => fetched);
      var first := Step(s, fetched);
      assert fetches[0] == fetched;
      assert fetches[1..] == seq(n - 1, _ => fetched);
      StepOnFailure(s, fetched);
      RepeatedFailureReportedOnce(first.state, fetched, n - 1);
    }
  }

  /** A successful cycle does not clear the last reported error: the same
      failure before and after it is reported only the first time. */
  lemma SuccessKeepsLastError(s: State, failing: Result<Json>, succeeding: Json)
    requires Attempt(s.timestamp, failing).Failure?
    requires ValidResponse(succeeding)
    requires Field(FirstRecord(succeeding), "homework_name").Some?
    ensures var report := Alert(Attempt(s.timestamp, failing).error);
            var sent := Run(s, [failing, Success(succeeding), failing]).sent;
            Alerts(sent) == (if report != s.lastError then [report] else [])
  {
    var c1 := Step(s, failing);
    StepOnFailure(s, failing);
    var c2 := Step(c1.state, Success(succeeding));
    StepOnSuccess(c1.state, succeeding);
    var c3 := Step(c2.state, failing);
    StepOnFailure(c2.state, failing);
    RunOfThree(s, failing, Success(succeeding), failing);
    AlertsAppend(c1.sent, c2.sent + c3.sent);
    AlertsAppend(c2.sent, c3.sent);
    StatusIsNotAlert(c2.sent);
    assert Alerts(c2.sent) == [] by {
      assert |c2.sent| == 1 && !IsAlert(c2.sent[0]);
    }
  }

  lemma RunOfThree(s: State, a: Result<Json>, b: Result<Json>, c: Result<Json>)
    ensures var c1 := Step(s, a);
            var c2 := Step(c1.state, b);
            var c3 := Step(c2.state, c);
            Run(s, [a, b, c]) == Cycle(c3.state, c1.sent + (c2.sent + c3.sent))
  {
    var fetches := [a, b, c];
    assert fetches[1..] == [b, c];
    assert fetches[1..][1..] == [c];
    assert [c][1..] == [];
    var c3 := Step(Step(Step(s, a).state, b).state, c);
    assert Run(Step(Step(s, a).state, b).state, [c]) == Cycle(c3.state, c3.sent + []);
    assert c3.sent + [] == c3.sent;
  }

  function ReplyDate(fetched: Result<Json>): Json
    requires Completes(fetched)
  {
    Field(fetched.value, "current_date").value
  }

  /** A cycle moves the window to the reply's date exactly when it completes. */
  lemma StepWindow(s: State, fetched: Result<Json>)
    ensures Step(s, fetched).state.timestamp ==
              if Completes(fetched) then ReplyDate(fetched) else s.timestamp
  {
    if !Completes(fetched) {
      StepOnFailure(s, fetched);
    }
  }

  /** After any run in which the cycle on reply `i` is the last to complete,
      the window is that reply's date (`FailuresKeepWindow` covers runs where
      no cycle completes). */
  lemma {:induction false} RunWindowFromReplies(s: State, fetches: seq<Result<Json>>, i: nat)
    requires i < |fetches| && Completes(fetches[i])
    requires forall j :: i < j < |fetches| ==> !Completes(fetches[j])
    ensures Run(s, fetches).state.timestamp == ReplyDate(fetches[i])
    decreases |fetches|
  {
    var first := Step(s, fetches[0]);
    var tail := fetches[1..];
    assert Run(s, fetches).state == Run(first.state, tail).state;
    StepWindow(s, fetches[0]);
    if i == 0 {
      forall j | 0 <= j < |tail|
        ensures !Completes(tail[j])
      {
        assert tail[j] == fetches[j + 1];
      }
      FailuresKeepWindow(first.state, tail);
    } else {
      assert tail[i - 1] == fetches[i];
      forall j | i - 1 < j < |tail|
        ensures !Completes(tail[j])
      {
        assert tail[j] == fetches[j + 1];
      }
      RunWindowFromReplies(first.state, tail, i - 1);
    }
  }

  /** While no cycle completes, the window never moves. */
  lemma {:induction false} FailuresKeepWindow(s: State, fetches: seq<Result<Json>>)
    requires forall i :: 0 <= i < |fetches| ==> !Completes(fetches[i])
    ensures Run(s, fetches).state.timestamp == s.timestamp
    decreases |fetches|
  {
    if |fetches| > 0 {
      var first := Step(s, fetches[0]);
      StepWindow(s, fetches[0]);
      assert forall i :: 0 <= i < |fetches[1..]| ==> fetches[1..][i] == fetches[i + 1];
      FailuresKeepWindow(first.state, fetches[1..]);
    }
  }

  /** While every cycle completes, no error is reported and the remembered
      error stays what it was. */
  lemma {:induction false} SuccessesKeepNoError(s: State, fetches: seq<Result<Json>>)
    requires forall i :: 0 <= i < |fetches| ==> Completes(fetches[i])
    ensures Run(s, fetches).state.lastError == s.lastError
    ensures Alerts(Run(s, fetches).sent) == []
    decreases |fetches|
  {
    if |fetches| > 0 {
      var first := Step(s, fetches[0]);
      var rest := Run(first.state, fetches[1..]);
      StepOnSuccess(s, fetches[0].value);
      StatusIsNotAlert(first.sent);
      assert Alerts(first.sent) == [] by {
        assert |first.sent| == 1 && !IsAlert(first.sent[0]);
      }
      assert forall i :: 0 <= i < |fetches[1..]| ==> fetches[1..][i] == fetches[i + 1];
      SuccessesKeepNoError(first.state, fetches[1..]);
      AlertsAppend(first.sent, rest.sent);
    }
  }
}
