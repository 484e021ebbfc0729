# Homework-status bot: a Dafny model of its polling rules

The bot polls the Practicum homework API every ten minutes, asking for the
homeworks updated since the start of its window. On every valid reply whose
first homework has a name, it relays to Telegram the review status of that
homework. When something goes wrong, including a first homework without a name,
it relays an error report instead. This project models the pure rules of that
bot (`homework.py`) and proves properties about them:

- the verdict table `HOMEWORK_VERDICTS` and the credential check `check_tokens`;
- `get_api_answer`, as a map from an abstract HTTP exchange to what the function
  returns or raises;
- the reply validator `check_response`, with every check in the code's order and
  the exact text of each exception;
- the status translator `parse_status`, including its exact message template;
- start-up and one cycle of the `while True` loop in `main`, as a pure step over
  the state (`timestamp`, `last_error`), which yields the messages sent in order.
  A run over a sequence of fetch outcomes chains these steps.

Files, one module each:

- `pyvalues.dfy` (`PyValues`): decoded JSON as Python holds it. Dicts are ordered
  member lists. It also covers key lookup, hashability, and `str()`/`repr()`.
- `exceptions.dfy` (`Exceptions`): exceptions as values (class and `str()` text),
  plus a `Result` type for "returned or raised".
- `homework.dfy` (`Homework`): the constants, `CheckTokens`, `GetApiAnswer`,
  `CheckResponse` and `ParseStatus`, with lemmas on them.
- `poll_loop.dfy` (`PollLoop`): `Start`, `Attempt` (the loop's `try` block),
  `Step` and `Run`.
- `loop_facts.dfy` (`LoopFacts`): properties of one cycle and of several cycles,
  chiefly how error reports are deduplicated and how the window moves.
- `scenarios.dfy` (`Scenarios`): the loop on concrete replies.

The model follows the code in these places, even where a cleaner design would differ:

- An empty `homeworks` list is an error (`EmptyValue`, `homework.py:91`), not a
  quiet "no change". So an idle poll reports an error once and leaves the window
  where it was (`Scenarios.EmptyListIsReported`).
- The window moves only when fetch, validation and translation all succeed. It
  does not move just because the fetch succeeded.
- The window takes whatever value the reply's `current_date` holds. Nothing
  checks that value, so the window can move backwards (`Scenarios.WindowCanMoveBack`)
  or stop being an integer. It is not "never decreased".
- `check_tokens` looks only at the three credentials. A missing `ENDPOINT` does
  not stop start-up.
- Status messages are not deduplicated, unlike error reports. The bot never
  compares a status with an earlier one: it sends the first homework's status
  on every cycle that completes, and only the API's `from_date` filter keeps an
  unchanged homework out of later replies (`Scenarios.SameStatusSentTwice`).
- `last_error` is never cleared by a successful cycle. An error that recurs after
  a success is therefore not reported again (`LoopFacts.SuccessKeepsLastError`).

## Model

| member | source | states |
|---|---|---|
| `Homework.CheckTokens` | homework.py:34-39 | succeeds (returning true) exactly when all three credentials are set and non-empty; otherwise raises `InvalidTokens` with "Отсутствуют токены!" |
| `Homework.CheckTokensIgnoresEndpoint` | homework.py:34-39 | the endpoint setting never changes the outcome of the credential check |
| `Homework.GetApiAnswer` | homework.py:51-69 | an OK reply yields its decoded body; a swallowed `requests` error yields None; any other HTTP status raises `StatusNotOk`; a built-in connection error, however it arises, is raised afresh as `ConnectionError` with "Проблема с соединением!"; other exceptions propagate unchanged |
| `Homework.InVerdicts` | homework.py:87-89 | membership in the verdict table holds exactly for the three string keys; a list or dict status raises `TypeError` instead of answering |
| `Homework.CheckResponse` | homework.py:72-91 | each error in the code's order (not a dict → `TypeError`; no date, then no list → `EmptyValue`; list not a list, first entry not a dict → `TypeError`; no status → `EmptyValue`; unknown status → `InvalidStatus`; empty list → `EmptyValue`); succeeds exactly on replies meeting the independent `ValidResponse`; the result is `homeworks[0]` and carries a known status |
| `Homework.CheckResponseIgnoresLaterHomeworks` | homework.py:82-90 | replacing every homework after the first leaves the validator's outcome unchanged, whether it succeeds or fails |
| `Homework.ParseStatus` | homework.py:94-104 | a missing name raises `EmptyValue` before the status is looked at; then a missing or unknown status raises `InvalidStatus`; succeeds exactly when the name is present and the status is a known key; the message is `Изменился статус проверки работы "<name>". <verdict>` |
| `Homework.VerdictsEndDistinctly` | homework.py:22-26 | the three verdict texts differ in their last two letters |
| `Homework.StatusMessageInjective` | homework.py:101-104 | two equal status messages have the same status and the same printed name, so the message identifies the verdict and the homework |
| `PollLoop.Alert` | homework.py:123 | an error report starts with "Сбой в работе программы: ", is never empty, and its remainder is the exception's own text |
| `PollLoop.Query` | homework.py:53 | the request's `from_date` parameter is the state's window start |
| `PollLoop.Start` | homework.py:107-114 | start-up succeeds exactly when the credentials pass and otherwise raises `InvalidTokens`; on success the window starts 600 s before now, no error is remembered, and only the start-up message is sent |
| `PollLoop.Attempt` | homework.py:116-122 | the `try` block completes exactly when the fetch returned a valid reply whose first homework has a name; the new window is the reply's date, and the one message sent is that homework's status message; otherwise the exception that escapes (and is reported) is the fetch's, else the validator's, else `EmptyValue` with "Отсутствует инфо о названии домашки!", so the translator's `InvalidStatus` never reaches the loop |
| `PollLoop.Step` | homework.py:115-128 | at most one message per cycle; the window changes only to the date of a valid reply; the remembered error changes only when that error is sent; an error report sent never equals the previous one; a status message is sent only when the `try` block completes |
| `PollLoop.Poll` | homework.py:115-127 | a cycle that requests the window's `from_date`: a swallowed request error reports "Response должен быть словарем!", a non-OK status reports "ENDPOINT недоступен!", a connection error reports "Проблема с соединением!"; each keeps the window and is sent only when it differs from the remembered error |
| `PollLoop.Run` | homework.py:115-128 | the loop over finitely many cycles; a run of n cycles sends at most n messages |
| `LoopFacts.FailedPollRepeats` | homework.py:53-64 | after a failing cycle the next request asks for the same `from_date`, so a server answering that request the same way makes the next cycle fail identically and send nothing |
| `LoopFacts.StepWindow` | homework.py:117-121 | a cycle moves the window to the reply's date exactly when its `try` block completes, and otherwise keeps it |
| `LoopFacts.StepOnSuccess` | homework.py:117-121 | a valid, named reply sends exactly its status message and moves the window to `current_date`; the remembered error is kept |
| `LoopFacts.StepOnFailure` | homework.py:122-127 | a failed cycle keeps the window and remembers its own report; it sends that report exactly when the report differs from the remembered one |
| `LoopFacts.FirstErrorIsReported` | homework.py:112-127 | the first failing cycle after start-up always sends its report, whatever number of completing cycles came before it |
| `LoopFacts.SuccessesKeepNoError` | homework.py:117-121 | a run in which every cycle completes sends no error report and leaves the remembered error unchanged |
| `LoopFacts.StepAlerts` | homework.py:122-127 | a cycle either reports nothing and keeps the remembered error, or reports one new error and remembers it |
| `LoopFacts.RunAlertsNeverRepeat` | homework.py:122-127 | over any run, no error report equals the one sent before it, and the state remembers the last report sent |
| `LoopFacts.RepeatedFailureReportedOnce` | homework.py:122-127 | the same failure repeated n > 0 times sends its report exactly once if it is new, and never otherwise; the window stays put |
| `LoopFacts.SuccessKeepsLastError` | homework.py:114-127 | a failure, a success, then the same failure: the report is sent at most once |
| `LoopFacts.RunWindowFromReplies` | homework.py:115-121 | after any run, the window is the `current_date` of the last reply whose cycle completed |
| `LoopFacts.FailuresKeepWindow` | homework.py:115-127 | a run in which no cycle completes leaves the window where it started |
| `Scenarios.ParseStatusApproved` | homework.py:101-104 | "hw1" with status "approved" translates to `Изменился статус проверки работы "hw1". Работа проверена: ревьюеру всё понравилось. Ура!` |
| `Scenarios.ApprovedReplyIsAnnounced` | homework.py:117-121 | a reply with date 1700000100 and an approved "hw1" sends that message and moves the window to 1700000100 |
| `Scenarios.SameStatusSentTwice` | homework.py:117-121 | the same approved reply in two cycles sends the status message twice: status messages are not deduplicated |
| `Scenarios.NamelessRecordIsReported` | homework.py:96-97 | a valid reply whose first homework has no name reports "Отсутствует инфо о названии домашки!" and keeps the window |
| `Scenarios.EmptyListIsReported` | homework.py:82-91 | an empty homework list reports "Отсутствует информация о домашней работе!" and keeps the window |
| `Scenarios.UnknownStatusIsReported` | homework.py:87-89 | the status "pending" reports "Отсутствует валидный статус домашки!" and keeps the window |
| `Scenarios.TimeoutTwiceReportedOnce` | homework.py:65-66 | two timed-out requests right after start-up send exactly one report |
| `Scenarios.WindowCanMoveBack` | homework.py:121 | a reply dated before the current window moves the window back to that date |

## Left out

- HTTP, decoding and transport: `requests.get`, the header and query construction,
  and `response.json()`. They become the abstract `Exchange` outcome.
- Which `requests` version is installed is not modelled. With a recent `requests`,
  an undecodable body raises a `RequestException`, which is swallowed
  (`RequestFailed`). With an old one, the error propagates (`Raised`).
- The `exceptions` module is not part of this model. Its classes are plain tags.
  `str(error)` is taken to be the raising text. `StatusNotOk` is taken not to be
  a `RequestException` subclass.
- The Telegram bot and `send_message`: delivery failures are swallowed, so a send
  is an append to the list of sent messages.
- Logging, `load_dotenv`/`os.getenv`, `time.time()`, `time.sleep(RETRY_PERIOD)` and
  the non-terminating `while True` are left out. These are I/O, clock and process
  control. The clock reading is a parameter of `Start`, and runs are finite
  sequences of cycles.
- PollLoop.Start: the bot object is not modelled. Its constructor is assumed to
  accept every token that passes `check_tokens`, so start-up fails only on a
  missing credential. A constructor that rejects a badly formed token is not modelled.
- The `exit()` after a false `check_tokens()` never happens, because `check_tokens`
  either returns true or raises. It is modelled as a `SystemExit` failure that no
  input reaches.
- JSON numbers with a fraction (Python floats) are not in the value model.
- `repr` of a string does not escape non-ASCII characters that Python considers
  unprintable. Only ASCII control characters are escaped.
- Dicts with a repeated key are outside the model, because `json.loads` never
  produces one. Lookups take the first matching member.
- Homework.GetApiAnswer: `Raised` stands only for exceptions that are not `RequestException` subclasses. One of class `ConnectionError` is re-raised with the fixed text. A subclass of `ConnectionError` cannot be written as an `OtherError(className)` tag, because tags do not express subclassing, so a `Raised` value never stands for one.
- Homework.InVerdicts: its contract names the class of the error raised for a list
  or dict status (`TypeError`), not its text. That text ("unhashable type: 'list'")
  depends on the Python version.
- Homework.ParseStatus: for a list or dict status, the contract states only the
  `TypeError` class, for the same reason.
- Homework.CheckResponse: for a list or dict status, the contract states only the
  `TypeError` class, for the same reason.
