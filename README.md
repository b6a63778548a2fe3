# homework_bot in Dafny

A model of the homework-review notifier bot (`homework.py`): a loop that polls the
review API, checks the shape of its answer, turns the newest submission's status
into a chat message in Russian, sends it, and moves its polling timestamp forward.

- `json_value.dfy` (module `JsonValue`): the decoded JSON answer as a datatype
  (`dict` is `JObject` over a `map`, `list` is `JArray` over a `seq`), which values
  Python can hash, and the text `str()` gives a scalar when it is put into an f-string.
- `homework.dfy` (module `Homework`): the status table `HOMEWORK_STATUSES`,
  `check_response`, `parse_status` and `check_tokens`. Each `raise` is an `Error`
  case, returned in a `Result`; `Raised` says which Python exception class it is.
  A decoder for the notification text proves that the message determines the
  status and the name as `str()` renders it, which is the name itself when it is a
  string (`ParseStatusRoundTrip`). Names that are not strings can collide: `None`
  and the string `"None"` give the same message.
- `poll_loop.dfy` (module `PollLoop`): one pass of the `main` loop as the function
  `Iterate`, and the class `Bot` holding `current_timestamp`. `Bot.Step` is the loop
  body and `Bot.Run` runs the loop for a finite list of passes. The clock readings,
  the API's answer and the chat client's success are the inputs of each pass (`Tick`).
  Each pass also reports the `from_date` it asks the API for.

Behaviour of `homework.py` that its names and docstrings do not suggest:

- The key guard of `check_response` (homework.py:72) is
  `'current_date' and 'homeworks' not in response.keys()`. Its first operand is a
  non-empty string, so it is always true. Only `homeworks` is required.
  `current_date` never changes the outcome (`CurrentDateIgnored`).
- The timestamp moves to the clock's reading only when the pass raised nothing.
  After any failure it stays as it was. The assignment (homework.py:143) comes after
  every step that can raise, so a failed pass never reaches it.
- `check_tokens` answers from `PRACTICUM_TOKEN` alone. `main` ignores its answer,
  and the exit after the `return` can never run.
- A submission record that is not a dict fails at the `.get` call (homework.py:90)
  before any key check. That failure is `RecordNotDict`, an `AttributeError`.
- A `status` that is a list or dict cannot be hashed by the `in ...keys()` test
  (homework.py:102). That raises `TypeError` (`StatusUnhashable`), not the `ValueError`
  an unknown scalar status gets.
- A send failure is not swallowed by `send_message`. Its `except` clause names an
  exception instance, not a class, so matching it raises a `TypeError`. That
  `TypeError` reaches the loop's `except`. The pass then fails and the timestamp stays.
- The failure text built in the loop's `except` (homework.py:146) is never sent.
  A failed pass delivers nothing.

## Model

| member | source | states |
|---|---|---|
| `Homework.Raised` | homework.py:44-106 | a non-dict answer, a non-list `homeworks`, an unhashable status and a failed send (raised while matching the `except` clause at homework.py:44) are `TypeError`; a missing `homeworks` and an unknown status are `ValueError`; a missing `homework_name` or `status` is `KeyError`; a non-dict record is `AttributeError` |
| `Homework.StatusCatalogTotal` | homework.py:32-36 | the status table has exactly the keys approved, reviewing and rejected, and every verdict text is non-empty |
| `Homework.CheckResponse` | homework.py:65-83 | a non-dict fails with `ResponseNotDict`, and only then; a dict without `homeworks` fails with `HomeworksMissing`, and only then; a non-list `homeworks` fails with `HomeworksNotList`, and only then; otherwise the `homeworks` list comes back unchanged, an empty list included |
| `Homework.CheckResponseTypeErrors` | homework.py:69-77 | the outcome is a `TypeError` exactly when the answer is not a dict or its `homeworks` is not a list |
| `Homework.CurrentDateIgnored` | homework.py:72-73 | adding, replacing or removing `current_date` never changes the outcome of the check |
| `Homework.CheckResponseRoundTrip` | homework.py:78-83 | an answer built from a date and a list of submissions passes the check and yields exactly that list |
| `Homework.Notification` | homework.py:107-108 | the message is the fixed prefix, then the name, then the separator `". `, then the verdict text |
| `JsonValue.Render` | homework.py:108 | a string name is inserted as it is; `None`, `True` and `False` are spelled as Python spells them; an integer is its decimal digits, after a `-` when negative |
| `Homework.ParseStatus` | homework.py:86-109 | errors come in the source's order: not a dict, then no `homework_name` (KeyError), then no `status` (KeyError), then a list or dict status (`StatusUnhashable`, a TypeError), then a status that is not a table key (`UnknownStatus` carrying that status, the only ValueError); it succeeds exactly when the record has both keys and a known status, and then the message is the notification for the rendered name and that status's verdict |
| `Homework.DecodeNotification` | homework.py:108 | a decoded message is exactly the notification for the recovered name and a status code in the table |
| `Homework.NotificationRoundTrip` | homework.py:107-108 | decoding the notification for any name and status code gives back that name and code, so different name/status pairs give different messages |
| `Homework.ParseStatusRoundTrip` | homework.py:86-109 | the message from a record with a string name decodes to that record's name and status |
| `JsonValue.RenderIntRoundTrip` | homework.py:108 | an integer name appears in the message as its decimal digits, after a `-` when negative, and the digits read back as its magnitude |
| `JsonValue.DigitsRoundTrip` | homework.py:108 | the decimal digits of a natural number read back as that number |
| `Homework.CheckTokens` | homework.py:112-126 | the check fails exactly when `PRACTICUM_TOKEN` is unset |
| `Homework.CheckTokensIgnoresLaterTokens` | homework.py:116-126 | `TELEGRAM_TOKEN` and `TELEGRAM_CHAT_ID` never change the answer |
| `Homework.CheckTokensAcceptsMissingTokens` | homework.py:116-126 | with only `PRACTICUM_TOKEN` set, the check as written passes while the corrected check fails |
| `Homework.MissingTokens` | homework.py:112-126 | lists the name of every unset variable and no other; it is empty exactly when all are set |
| `Homework.TokensPresent` | homework.py:112-115 | the corrected check passes exactly when all three variables are set |
| `PollLoop.Iterate` | homework.py:136-142 | a pass succeeds exactly when the fetch succeeded, the answer passed the check, and, if it lists any submission, the first one parsed and the send succeeded; a sent message is the parse of `homeworks[0]`; nothing is sent exactly when the list is empty; a failed pass carries the error of the first step that raised: `ApiUnavailable` from the fetch, the check's error, the parse's error, or `SendFailed` from the send |
| `PollLoop.SentBy` | homework.py:139-142 | a pass delivers at most one message; it delivers one exactly when it succeeded with that message, and then it is that message |
| `PollLoop.Bot.constructor` | homework.py:134 | polling starts from the clock reading taken at start-up |
| `PollLoop.Bot.Step` | homework.py:136-148 | the request's `from_date` is the timestamp before the pass (the clock reading when that is 0); the pass's outcome is `Iterate` of its inputs; the timestamp becomes the clock reading after a successful pass and is unchanged after a failed one |
| `PollLoop.Bot.Run` | homework.py:135-148 | after the given passes the timestamp is `FinalTimestamp` of the start value, the requested dates are `Requests` of the passes, and the delivered messages are `Delivered` of the passes |
| `PollLoop.AtMostOneMessagePerPass` | homework.py:139-142 | a run never delivers more messages than it has passes |
| `PollLoop.DeliveredAreFirstRecords` | homework.py:139-142 | every delivered message is the notification for the first submission of some pass's answer |
| `PollLoop.SuccessfulPassDelivered` | homework.py:139-142 | every pass that succeeds with a message gets that message delivered |
| `PollLoop.FailedPassesKeepTimestamp` | homework.py:143-148 | a run whose passes all fail leaves the timestamp at its start value |
| `PollLoop.TimestampIsLastSuccess` | homework.py:137-148 | after a run the timestamp is the clock reading of the last pass that succeeded |
| `PollLoop.TimestampBoundedByClock` | homework.py:143 | the timestamp never exceeds a bound that the start value and every clock reading respect |
| `PollLoop.TimestampNonDecreasing` | homework.py:134-143 | with a clock that never runs backwards and starts at or after the start value, the timestamp never decreases from one pass to the next |
| `PollLoop.RequestsAt` | homework.py:52-53 | pass k requests `from_date` equal to the timestamp left by the passes before it, or the clock reading when that is 0 |
| `PollLoop.RequestSinceLastSuccess` | homework.py:137-143 | with non-zero clock readings, each pass asks for submissions since the clock reading of the last earlier pass that succeeded |
| `PollLoop.RequestSinceStartUntilSuccess` | homework.py:134-137 | with a non-zero start time, every pass until one succeeds asks for submissions since start-up |
| `PollLoop.EmptyAnswerAdvances` | homework.py:138-143 | any answer whose `homeworks` is an empty list succeeds, sends nothing and moves the timestamp to the clock reading, whether or not the chat client works |
| `PollLoop.ApprovedSubmissionSent` | homework.py:137-143 | any answer whose first submission has a name and the status `approved` sends the notification for that rendered name and the approved verdict when the send succeeds, and moves the timestamp |
| `PollLoop.UnknownStatusKeepsTimestamp` | homework.py:136-148 | any answer whose first submission has a name and a hashable status that is not a table key fails the pass with `UnknownStatus` carrying that status, sends nothing and keeps the timestamp, whatever later submissions hold |

## Findings

| source | as written | input that shows it | evidently intended | confidence | as-written member | corrected member |
|---|---|---|---|---|---|---|
| homework.py:116-126 | the loop returns on its first pass, so only `PRACTICUM_TOKEN` is checked | `PRACTICUM_TOKEN` set, `TELEGRAM_TOKEN` and `TELEGRAM_CHAT_ID` unset: the check passes | fail when any of the three variables is unset | high; not executed | `Homework.CheckTokensAcceptsMissingTokens` | `Homework.TokensPresent` |

`main` ignores the check's answer, so the rest of the model does not depend on
which version is used.

## Left out

- `get_api_answer` (homework.py:48-62) is left out apart from the `from_date` it computes (`FromDate`). Its HTTP request, status-code check and JSON decoding become the `fetched` input of a pass: the decoded answer, or `None` when it raised, which the pass turns into `ApiUnavailable`. That includes the unbound `response` after a swallowed `RequestException`. The model does not tie the fetched answer to the requested `from_date`: that filtering happens on the server.
- Homework.Raised: `ApiUnavailable` maps to `Unmodelled`, because one error stands for several classes. They are `ValueError` for a non-200 status (homework.py:59) or a body that is not JSON (homework.py:61), and `UnboundLocalError` after a swallowed request error (homework.py:58). Whatever else `requests` raises is included too.
- `send_message` (homework.py:39-45) is left out. The Telegram call becomes the `sendSucceeds` input, and a failure is `SendFailed`.
- Logging, `load_dotenv`/`os.getenv` and the `telegram.Bot` construction are left out. They are I/O or calls into libraries. The three tokens are `Option<string>` inputs.
- `time.time()` and `time.sleep(RETRY_TIME)` are left out. The clock reading is an input of each pass, and nothing models sleeping.
- The endless `while True` is left out as such. `Bot.Run` models its first passes, as many as it is given.
- Exception messages are left out. The model keeps which error was raised and its Python class, not its text.
- JSON numbers are integers. Floats and their `str()` spelling are not modelled.
- Python's repr of a list or dict used as `homework_name` is not modelled. `JsonValue.Render` gives a fixed placeholder for those, since a `map` keeps no key order.
- The `exceptions` module is not part of this model. The one place that uses it (homework.py:44) only matters through the failure it lets escape.
