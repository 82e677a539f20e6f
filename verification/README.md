# homework_bot, modelled in Dafny

A model of the Telegram bot that polls the Yandex Practicum homework-status
API and tells its owner when a review status changes (`homework.py`). The
model covers the bot's whole decision logic:

- `check_response`: validation of the decoded API answer, in its fixed
  order, and extraction of the `homeworks` list (module `Validator`);
- `parse_status` and the `HOMEWORK_STATUSES` table: the sentence built
  from the first homework record, or the fixed "no works" sentence for an
  empty list (module `Formatter`);
- `check_tokens`: the start-up gate on the three environment variables
  (module `Config`);
- `main`: the start-up decision and one pass of the polling loop as a pure
  step function over the loop's memory (`current_answer`,
  `current_error`, `current_timestamp`) plus the list of messages sent so
  far; `Run` strings passes together over a finite list of polls (module
  `PollLoop`).

Decoded JSON is the datatype `JsonValues.Json`; the parts of Python the
bot leans on (truthiness, `dict.get(...) is None`, `type(v).__name__`,
`str(v)` in f-strings) are written out there. Every raised exception is a
case of an error datatype, and its `str()` text is rendered exactly as
Python renders it: a `KeyError` as the quoted repr of its message, an
`AttributeError` for `.get` on a record that is not a dict, a `TypeError`
for a list or dict used as a status key. The incident message the loop sends
is `"Сбой в работе программы: "` followed by that text.

The HTTP request, the clock and the Telegram client are parameters: a poll
is `TransportError(description)` or `Body(json)`, the clock reading after
a successful poll is the `now` argument of `Step`, and delivering a message
appends it to `State.sent`.

Behaviour of the code worth noting:

- the answer key is `homeworks` and the name field is `homework_name`;
- an empty `homeworks` list yields the sentence "В настоящее время у Вас
  нет работ на проверке", which is deduplicated and sent like any other
  answer (`Scenarios.EmptyListIsAnAnswer`);
- after a successful pass the cursor becomes the current time;
- `check_tokens` tests only for absence (`is None`), so empty strings pass
  it, although the Telegram client built next may still refuse an empty
  token;
- a failing `send_message` is not caught anywhere;
- the incident text for an unknown status never says which status it was,
  so a switch from one unknown status to another is not reported
  (`Formatter.ParseErrorTextsAgree`).

## Model

| member | source | states |
|---|---|---|
| JsonValues.Get | homework.py:81-83 | `d.get(key) is None` holds exactly when the key is missing or bound to null; otherwise the stored value is returned |
| JsonValues.PyStr | homework.py:117 | `str()` of a string is the string itself, so a string homework name is embedded verbatim |
| JsonValues.Falsy | homework.py:71 | `not response` holds exactly for None, False, 0, "", [] and {} |
| JsonValues.NatToDecimal | homework.py:117 | `str()` of a natural number is a non-empty digit string without a leading zero |
| JsonValues.DecimalRoundTrip | homework.py:117 | reading the rendered digits back gives the number, so distinct naturals render distinctly |
| JsonValues.IntToDecimal | homework.py:117 | `str()` of an integer is non-empty and starts with `-` exactly for negatives |
| JsonValues.IntToDecimalInjective | homework.py:117 | distinct integers, of either sign, render as distinct strings |
| JsonValues.KeyErrorText | homework.py:85 | `str()` of a KeyError is its message in single quotes |
| JsonValues.FalsyRenderingsDistinct | homework.py:75 | the six falsy answers render as six different texts |
| Validator.CheckResponse | homework.py:69-91 | each of the four errors occurs iff all earlier checks passed and its own fails (falsy answer, then not a dict, then missing/null `homeworks`, then not a list); success iff the answer is a non-empty dict whose `homeworks` is a list, returning that list unchanged |
| Validator.CheckResponseReturnsHomeworks | homework.py:81-91 | any dict holding a `homeworks` list, empty or not, passes and yields exactly that list |
| Validator.CheckErrorText | homework.py:71-89 | the empty-answer text is the fixed message followed by `str()` of the answer; the missing-key text is the quoted KeyError message |
| Validator.CheckErrorTextsDistinct | homework.py:71-89 | any two different errors `check_response` can raise have different texts |
| Validator.CheckResponseErrorsRaisable | homework.py:71-75 | an empty-answer error always carries a falsy answer |
| Validator.EmptyResponseTexts | homework.py:71-75 | the empty-answer exception text ends with Python's rendering of the answer (`{}`, `[]`, `None`) |
| Formatter.StatusMessage | homework.py:117 | the sentence starts with the fixed opening, holds the name right after it and ends with the verdict |
| Formatter.Verdict | homework.py:22-26 | the table lookup raises TypeError iff the status is a list or dict, and finds a verdict iff the status is one of the three recognised strings, returning that status's phrase |
| Formatter.ParseRecord | homework.py:100-117 | on one record: not a dict, missing/null `status`, missing/null `homework_name`, unhashable status, unknown status each fail iff all earlier checks passed and their own fails; success iff the record has a recognised string status and a non-null name, giving the sentence with that name and verdict |
| Formatter.ParseStatus | homework.py:94-119 | an empty list gives the fixed "no works" sentence and never fails; a non-empty list gives exactly the outcome of its first record |
| Formatter.DependsOnlyOnFirst | homework.py:96-98 | appending records, or dropping all but the first, never changes the outcome |
| Formatter.RecognisedStatusMessage | homework.py:112-117 | a first record with a recognised status and a string name yields `Изменился статус проверки работы "<name>". <verdict>` |
| Formatter.ParseErrorText | homework.py:100-115 | the three KeyErrors render as their fixed quoted messages, whatever the status was; the AttributeError of `.get` on a non-dict and the unhashable-status TypeError name the value's type |
| Formatter.ParseErrorTextsAgree | homework.py:100-115 | two raisable formatting errors have the same text iff they are the same kind on values of the same type (all unknown statuses alike) |
| Formatter.StatusMessageInjective | homework.py:117 | two status sentences are equal only if the rendered name strings and the verdicts are, so every change of rendered name or of status gives a new text |
| Formatter.NameRenderingCollides | homework.py:105-117 | the integer name 5 and the string name "5" give the same sentence |
| Formatter.VerdictsDistinct | homework.py:22-26 | the three statuses map to three different phrases |
| Formatter.AnswerShape | homework.py:117-119 | every answer is the "no works" sentence or starts with the status-change opening |
| Config.FirstMissing | homework.py:122-135 | `check_tokens` stops at the first unset variable in the order practicum token, telegram token, chat id |
| Config.CheckTokens | homework.py:122-136 | true iff none of the three variables is unset |
| Config.EmptyTokensAccepted | homework.py:124-135 | empty strings pass the gate |
| Config.MissingVariableLogAsWritten | homework.py:124-135 | a critical line is logged iff the gate fails, and it starts with the fixed prefix |
| Config.AsWrittenLogHidesVariable | homework.py:124-135 | a missing API token and a missing chat id log the same line |
| Config.MissingVariableLog | homework.py:124-135 | the corrected line is logged iff the gate fails and starts with the fixed prefix |
| Config.MissingVariableLogIdentifies | homework.py:124-135 | the corrected line determines the variable at which the gate stopped |
| PollLoop.FaultText | homework.py:154-155 | the incident embeds a transport failure's description verbatim and otherwise the exact text of the validation or formatting exception |
| PollLoop.Incident | homework.py:154-155 | every incident message carries the failure prefix |
| PollLoop.IncidentsDistinguishFailures | homework.py:154-158 | different validation failures give different incidents; formatting failures give the same incident only when Python renders them alike |
| PollLoop.Start | homework.py:141-165 | `main` starts the loop iff all three variables are set and the Telegram client accepts its token, with empty memory and the cursor at the start time; a missing variable raises the start-up exception, a refused token raises from the client, and neither polls |
| PollLoop.StartFailureText | homework.py:165 | only a missing variable raises the start-up exception text |
| PollLoop.Process | homework.py:148-151 | a transport error fails as such; a body fails with the validator's error if validation fails, and otherwise gives the formatter's outcome |
| PollLoop.Step | homework.py:147-163 | a failure sends its incident iff it differs from the remembered error, then remembers it, leaving answer and cursor alone; a success moves the cursor to the clock reading and sends the answer iff it differs from the remembered answer, leaving the error memory alone |
| PollLoop.RepeatSendsNothing | homework.py:156-163 | the same poll outcome twice in a row sends nothing the second time |
| PollLoop.FailureDoesNotResetAnswer | homework.py:154-163 | an answer interrupted by a failure is not resent when it returns, nor is the incident when the failure recurs |
| PollLoop.Run | homework.py:147-163 | a run only appends to the sent messages, at most one per pass |
| PollLoop.RunAppend | homework.py:147-163 | a run followed by one more pass is the longer run |
| PollLoop.RunCursor | homework.py:145-152 | after any run the cursor is the clock reading of the last fully successful pass, or the starting cursor if none succeeded |
| PollLoop.AnswerIsNotIncident | homework.py:117-155 | no answer text carries the failure prefix, so answers and incidents never collide |
| PollLoop.StartEstablishesInvariant | homework.py:142-145 | the loop starts with nothing sent and memory consistent with that |
| PollLoop.StepPreservesInvariant | homework.py:154-163 | one pass keeps the remembered answer/error equal to the last answer/incident sent, never sends the same answer or incident twice in a row, and appends at most one message |
| PollLoop.RunPreservesInvariant | homework.py:147-163 | over any finite run no answer and no incident is sent twice in a row, and the memory holds the last answer and the last incident sent |
| PollLoop.SustainedConditionSentOnce | homework.py:147-163 | any number of passes with the same poll outcome send at most one message |
| Scenarios.ApprovedHomeworkSentOnce | homework.py:147-163 | one approved homework polled twice sends its sentence once and moves the cursor both times |
| Scenarios.EmptyAnswerReportedOnce | homework.py:71-75 | an empty answer polled twice sends one incident and leaves the cursor at the start time |
| Scenarios.EmptyListIsAnAnswer | homework.py:119 | an empty `homeworks` list sends the "no works" sentence and moves the cursor |
| Scenarios.MissingChatIdStops | homework.py:132-135 | an unset chat id stops `main` with the start-up exception |
| Scenarios.RejectedTelegramTokenStops | homework.py:141-144 | an empty Telegram token passes `check_tokens` but stops `main` when the client refuses it |

## Left out

- `get_api_answer` (homework.py:54-66): the HTTP request, the status-code check and `response.json()` are network I/O; a poll is its outcome, a transport error carrying the exception's text or a decoded body. Its `current_timestamp or int(time.time())` fallback only shapes the request and has no effect on the model.
- `send_message` and `telegram.Bot` (homework.py:45-51, 144): delivery is appending to `State.sent`. A delivery failure propagates out of `main` and ends the process; this is not modelled.
- PollLoop.Start: whether `telegram.Bot(token=TELEGRAM_TOKEN)` at homework.py:144 accepts the token is the `botCreated` argument; the client's own token validation and the text of its exception are not modelled.
- `time.sleep`, `time.time` and the endless `while True`: one pass is `Step`, finite sequences of passes are `Run`, and the clock is the `now` argument.
- Logging, `load_dotenv` and `os.getenv` (homework.py:12-16, 28-42): the three variables are `Option<string>` arguments; log lines carry no behaviour, and only the critical line of `check_tokens` is modelled, for the finding below.
- PyStr: a non-empty JSON list or object renders as a fixed placeholder (`[...]`, `{...}`) rather than Python's `str()` of it: that rendering is the `repr` of every element, with Python's quote selection and escaping for nested strings, and for a dict also the key order of the decoded answer, which a Dafny map does not keep. Two different container-valued homework names therefore produce the same sentence in the model.
- JSON floating-point numbers are not part of the `Json` datatype.
- A transport error's description is an opaque string, not a rendering of a `requests` exception.
- `exceptions.py` declares exception classes that `homework.py` never uses.

## Findings

| source | as written | input that shows it | evidently intended | confidence | as-written member | corrected member |
|---|---|---|---|---|---|---|
| homework.py:124-135 | each critical line formats the missing variable's value, which is None there, so every line reads "Отсутствует переменная окружения: None" | PRACTICUM_TOKEN unset, or TELEGRAM_CHAT_ID unset: both log the same line | the line names the missing variable | high; not executed | Config.MissingVariableLogAsWritten, Config.AsWrittenLogHidesVariable | Config.MissingVariableLog, Config.MissingVariableLogIdentifies |
