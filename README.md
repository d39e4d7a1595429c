# Notifier-Bot, modelled in Dafny

Notifier-Bot polls a homework-review API, formats the first homework in the
returned list as a Russian-language message and forwards it to one Telegram chat. This
project models its two pieces of decision logic:

- `Formatter` (formatter.dfy): `parse_homework_status`, the pure formatter
  from a homework record (whose `homework_name` and `status` keys may each be
  absent) to one of five kinds of text: the "could not get data" message,
  three fixed verdicts under a header built from the name, and the
  "unknown status" report.
- `Notifier` (notifier.dfy): one pass of the `main` loop as the function
  `Cycle` over the `timestamp` cursor, the poller's conversion of any request
  failure into the empty object, and the bot as the class `Bot`, whose
  `Step` method updates the cursor, the chat history, the liveness flag and
  the seconds slept, and whose `RunCycles` method runs a finite prefix of the
  endless loop.
- `Wrappers` (wrappers.dfy): the `Option` type used for absent JSON keys.

The outside world enters as data. A poll is a `Fetch`: either the decoded
JSON body or a request failure. The body is an object (its `homeworks` list
and `current_date` are each optional) or some other JSON value, on which the
first `.get` (notifier-bot.py:78) raises inside the loop's `try`. The
wall-clock time is a parameter. Each chat send is a `Delivery`: it went
through, or it raised with some exception text.

The `except` handler (notifier-bot.py:84-88) reports the error and sleeps,
so the loop keeps going. But the report is sent inside the handler at line 87
with no `try` around it. If that send raises, the exception leaves `main` and
the process ends. `Cycle` reports this as `crashed`, and `Bot.alive` becomes
false.

## Model

| member | source | states |
|---|---|---|
| `Formatter.VerdictFor` | notifier-bot.py:33-40 | a verdict exists exactly for the three known statuses `rejected`, `approved`, `reviewing` |
| `Formatter.NoDataExactlyWhenMissing` | notifier-bot.py:25-31 | the result is `Не удалось получить данные.` if and only if the name or the status is absent, whatever the other field holds |
| `Formatter.EmptyFieldsAreNotMissing` | notifier-bot.py:28 | only absence counts as missing: an empty name with an empty status goes on to the status branches and gives the unknown-status text |
| `Formatter.KnownStatusMessages` | notifier-bot.py:33-46 | each known status gives exactly `У вас проверили работу "<name>"!` and a blank line, followed by its own verdict |
| `Formatter.UnknownStatusMentionsNameAndStatus` | notifier-bot.py:40-44 | any other status gives exactly `У работы "<name>" неизвестный статус: <status>.`, which contains both the name and the status |
| `Formatter.VerdictsDistinct` | notifier-bot.py:33-39 | the three verdicts are pairwise distinct |
| `Formatter.ReviewedNeverLooksUnknown` | notifier-bot.py:33-46 | a reviewed notification never equals an unknown-status report |
| `Formatter.ReviewedMessageDeterminesRecord` | notifier-bot.py:33-46 | two records with known statuses that give the same text have the same name and status: the notification names its homework and verdict unambiguously |
| `Notifier.GetHomeworkStatuses` | notifier-bot.py:53-62 | a request or decoding failure becomes the empty object (no `homeworks`, no `current_date`); a decoded body, object or not, is passed on unchanged |
| `Notifier.FirstHomework` | notifier-bot.py:78-80 | a homework is picked exactly when the list is present and non-empty, and it is the list's first element |
| `Notifier.SentOnlyForNonEmptyList` | notifier-bot.py:76-88 | a cycle puts a message in the chat if and only if either the body is an object whose list is present and non-empty and the notification or the error report goes through, or the body is not an object and the error report goes through |
| `Notifier.OnlyFirstHomeworkIsSent` | notifier-bot.py:78-80 | when the send goes through, the cycle's only message is the formatting of the first homework and the loop goes on |
| `Notifier.LaterHomeworksIgnored` | notifier-bot.py:78-80 | replacing every homework after the first leaves the whole cycle's result unchanged |
| `Notifier.CursorAfterQuietCycle` | notifier-bot.py:81-82 | with no exception (the body is an object, and no send is attempted or it goes through), the cursor becomes `current_date` when present and the wall-clock time otherwise, whether or not a message was sent, and the bot sleeps 30 seconds |
| `Notifier.FailedPollCycle` | notifier-bot.py:58-62 | after a failed poll the cycle sends nothing, moves the cursor to the wall-clock time, sleeps 30 seconds and goes on |
| `Notifier.SendFailureCycle` | notifier-bot.py:84-88 | when the notification send raises, the cursor keeps its old value; the one message produced is `Бот столкнулся с ошибкой: <error>` followed by a 60-second sleep, or, if that send raises too, nothing and the loop ends |
| `Notifier.NonObjectBodyCycle` | notifier-bot.py:76-88 | a body that is not an object raises at the first `.get` with no homework involved: the cursor keeps its old value and the one message is `Бот столкнулся с ошибкой: <error>` with a 60-second sleep, or, if that send raises too, nothing and the loop ends |
| `Notifier.RunAppend` | notifier-bot.py:75-88 | running two batches of cycles one after the other is the same as running them together |
| `Notifier.RunAfterCrash` | notifier-bot.py:87 | once an exception has escaped the loop, further cycles change nothing |
| `Notifier.ChatOnlyGrows` | notifier-bot.py:75-88 | messages in the chat are never taken back, and each cycle adds at most one |
| `Notifier.CursorFollowsLastQuietCycle` | notifier-bot.py:81 | after any run ending in a cycle that raised nothing, the cursor is that cycle's `current_date` or wall-clock time, whatever came before |
| `Notifier.Bot.constructor` | notifier-bot.py:71-73 | a new bot has its cursor at the start-up wall-clock time, an empty chat, and is running |
| `Notifier.Bot.SendMessage` | notifier-bot.py:65-67 | the text is appended to the chat unless the client call raises, in which case the exception text is returned and the chat is unchanged |
| `Notifier.Bot.Step` | notifier-bot.py:76-88 | one pass of the loop moves the bot's cursor, chat, liveness and sleep total exactly as `Cycle` says |
| `Notifier.Bot.RunCycles` | notifier-bot.py:75-88 | the loop over a sequence of cycles, stopping once an exception escapes, ends in the state `Run` gives |

## Left out

- The HTTP request, the JSON decoding and the OAuth header (notifier-bot.py:49-56): network I/O through a foreign library. Only their outcome is modelled: a decoded body or a failure.
- The Telegram client (notifier-bot.py:65-67, 71): a foreign call. A send is modelled as a `Delivery` that went through or raised.
- `time.time()` and `time.sleep` (notifier-bot.py:73, 81, 82, 88): the time is a parameter, and a sleep only adds its seconds to `Bot.slept`.
- `load_dotenv`, `os.getenv` and the module-level configuration (notifier-bot.py:9, 18-21): environment I/O. The `TypeError` that a missing API token raises at line 51, outside the poller's `try`, is not modelled.
- Logging setup and log calls (notifier-bot.py:11-16, 30, 43, 60, 66, 72, 86): side effects with no observable result.
- The text of a Python exception (notifier-bot.py:59, 85): an opaque string.
- The endless `while True` (notifier-bot.py:75): `Bot.RunCycles` runs a finite sequence of cycles. Termination of the real loop is not a property of the program.
- JSON shapes inside an object body that the model does not cover: `current_date` holding `null` or a non-integer, `homeworks` holding something other than a list, a homework that is not an object, and a name or status that is not a string. Each key is either absent or holds a value of the modelled type. (A body that is not an object at all is modelled.)
