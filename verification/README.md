# homework_bot in Dafny

A model of the Telegram bot that polls the Yandex Practicum homework-status
API and forwards status changes to one chat. The model covers the logic of
`homework.py`:

- the token check run at startup (`check_tokens`), ending the process with
  exit code 1 when a token is missing;
- the status-code check of `get_api_answer`, with the HTTP request itself
  replaced by its outcome (a transport failure with its text, or a status code
  with an already decoded JSON body);
- `check_response`, which checks that the decoded answer is an object holding
  a `homeworks` list and returns that list;
- `parse_status` with the verdict table `HOMEWORK_VERDICTS`, which turns a
  homework record into the notification text;
- the polling loop of `main`: its local state (the `from_date` cursor and the
  last error text sent), one iteration (`Cycle`), a run of iterations over a
  finite sequence of API answers (`Run`), and `main` itself as an imperative
  loop (`RunBot`) proved equal to that run.

Raised exceptions are `Failure(Error(kind, text))` values, where `kind` is
`TokenError` or `APIResponseError` (the two subclasses of `PraktikumAPIError`
in `exceptions.py`) or Python's `TypeError`, and `text` is what `str(error)`
gives. `send_message` never raises, so a sent message is a `Notification`
holding its text and whether the chat received it; that flag is an input of
each iteration and nothing in the state depends on it.

Points where the code's behaviour is easy to misread:

- The cursor moves to `current_date` after every iteration that raises
  nothing, including one with an empty homework list and one whose message
  was not delivered (`send_message` swallows delivery errors). It does not
  wait for a confirmed delivery.
- `last_error_message` is overwritten as soon as an error is handed to
  `send_message`, whether or not it was delivered, so an undelivered error is
  not sent again while it repeats.
- `current_date` is stored as whatever JSON value the answer holds; nothing
  checks that it is an integer.

Modules: `Wrappers` (Option, Result), `JsonValues` (decoded JSON),
`Exceptions` (`exceptions.py`), `Decimal` (rendering of status codes),
`Homework` (the guard functions of `homework.py`), `PollLoop` (the loop of
`main`).

## Model

| member | source | states |
|---|---|---|
| `Homework.VerdictTable` | homework.py:33-37 | the verdict table has exactly the three statuses approved, reviewing, rejected, and their three texts are pairwise distinct |
| `Homework.All` | homework.py:42-43 | `all(tokens)` holds exactly when every token is neither None nor empty |
| `Homework.CheckTokens` | homework.py:40-45 | succeeds (with `True`) exactly when all three tokens are present and non-empty; otherwise raises a TokenError |
| `Homework.GetApiAnswer` | homework.py:48-65 | returns the body exactly on a 200 answer; a non-200 answer raises APIResponseError whose text ends in the status code, a transport failure one whose text ends in the cause; every error is a PraktikumAPIError |
| `Decimal.ShowInjective` | homework.py:59 | the status code rendered in the error text determines the code |
| `Homework.StatusCodeErrorsDistinct` | homework.py:57-60 | two different non-200 status codes give different error texts, so they are never deduplicated together |
| `Homework.RequestErrorsDistinct` | homework.py:63-65 | two different transport failures give different error texts |
| `Homework.CheckResponse` | homework.py:68-77 | raises TypeError when the answer is not an object, then when `homeworks` is missing, then when it is not a list, each with its own text (not a PraktikumAPIError); otherwise returns exactly the `homeworks` list |
| `Homework.CheckResponseIgnoresOtherKeys` | homework.py:68-77 | members other than `homeworks` (such as `current_date`) do not change what check_response returns or raises |
| `Homework.CheckResponseErrorsDistinct` | homework.py:70-76 | the three check_response failures have pairwise distinct texts |
| `Homework.FirstMissingKey` | homework.py:82-86 | the key reported is the first of the required keys missing from the record; none is reported exactly when all are present |
| `Homework.ParseStatus` | homework.py:80-91 | raises APIResponseError for a missing `status` (reported first when both keys are missing), then a missing `homework_name`, then a status outside the table with the status at the end of the text; otherwise returns the template message with the name and the status's verdict |
| `Homework.ReadStatusMessageInverse` | homework.py:88-91 | every notification parse_status builds can be read back to the homework name and status it was built from |
| `Homework.StatusMessageInjective` | homework.py:88-91 | two accepted records give the same notification exactly when they have the same name and status |
| `PollLoop.TryCycle` | homework.py:118-127 | the error raised is that of the first failing step among get_api_answer, check_response and parse_status of `homeworks[0]`; when none fails, the result is the response's `current_date` (if any) and the first homework's message (none for an empty list) |
| `PollLoop.Cycle` | homework.py:117-133 | an iteration sends at most one message; the cursor moves only when nothing was raised; the last error text changes only to an error text sent in that iteration |
| `PollLoop.CycleWithoutError` | homework.py:118-127 | when nothing is raised: the status message of the first homework is sent (nothing for an empty list), the cursor becomes `current_date` if present and otherwise stays, and the last error text is kept |
| `PollLoop.CycleWithError` | homework.py:128-133 | when fetch, validation or formatting raises: the cursor is kept, the error text is sent exactly when it differs from the last one sent, and it becomes the last error text |
| `PollLoop.OnlyFirstHomework` | homework.py:121-124 | only `homeworks[0]` is formatted; the rest of the list changes nothing |
| `PollLoop.Run` | homework.py:117-135 | a run of n iterations sends at most n messages |
| `PollLoop.LastErrorMessageIsLastRaised` | homework.py:115-133 | after any run, the last error text is that of the last iteration that raised, or the initial one (None at startup) if none did |
| `PollLoop.TimestampIsLastCurrentDate` | homework.py:118-128 | after any run, the cursor is the `current_date` of the last iteration that raised nothing and carried one, or the initial cursor |
| `PollLoop.CycleIgnoresDelivery` | homework.py:94-101 | within one iteration, whether the message is delivered changes neither the new state nor the text sent |
| `PollLoop.RunIgnoresDelivery` | homework.py:94-101 | whether messages are delivered changes neither the final state nor the texts sent |
| `PollLoop.RepeatedErrorSentOnce` | homework.py:129-133 | iterations that all raise the same error text send it once if it differs from the last error sent before, never otherwise, and leave it as the last error text with the cursor unchanged |
| `PollLoop.TwoIdenticalRequestErrors` | homework.py:115-133 | from startup, two iterations failing with the same request error send exactly one notification |
| `PollLoop.ReviewingScenario` | homework.py:118-127 | a response with one reviewing homework "HW1" and `current_date` 1000, cursor 500, sends the reviewing message for "HW1" and moves the cursor to 1000 |
| `PollLoop.EmptyListScenario` | homework.py:121-127 | a response with an empty homework list and no `current_date` sends nothing and changes nothing |
| `PollLoop.PollOnce` | homework.py:118-133 | one pass of the imperative loop body yields exactly the new state and the messages of `Cycle` |
| `PollLoop.RunBot` | homework.py:104-135 | exits with code 1 and sends nothing exactly when a token is missing; otherwise sends the startup message, then ends in the state and with the messages of `Run` from a cursor thirty days before now and no last error |

## Left out

- The HTTP request (`requests.get` with the OAuth header and `from_date`) and JSON decoding: each iteration receives the answer as a `FetchOutcome`, so the cursor's role as the request parameter is not modelled; a body that fails to decode is not modelled.
- The Telegram client and its transport: a sent message is recorded as a `Notification` with an input delivery flag.
- Logging setup and every log call: they have no effect on the state.
- Reading the tokens from the environment (`load_dotenv`, `os.getenv`) and building the request headers: tokens are optional strings passed to `CheckTokens` and `RunBot`.
- The clock, the sleep of `RETRY_PERIOD` between iterations, `sys.exit` and the endless loop: `RunBot` takes the current time as an integer (already truncated) and runs over a finite sequence of answers; an exit is reported as `Exited(1)`.
- Floating-point JSON numbers are not part of `Json`.
- Homework.ParseStatus: requires the record to be a JSON object whose `status` and `homework_name`, when present, are strings; Python's `in` on a string or list record, unhashable statuses and `str()` of non-string names are not modelled.
- PollLoop.Cycle: requires the first homework of a 200 answer's list to be such a record (`FirstRecordModelled`), for the same reason.
- PollLoop.Run: requires every answer to satisfy `FirstRecordModelled`, for the same reason.
- PollLoop.RunBot: requires every answer to satisfy `FirstRecordModelled`, for the same reason.
