# My weaknesses bot: registration and streak bookkeeping

A Telegram bot tracks a "weakness" each user is trying to quit. This model
covers two things: the `users` table and the handlers that read and write
it. It does not cover the Telegram and database plumbing around them.

- **User table** (`Models`): a map from `telegram_id` to a `User` row. The row
  holds the optional profile names, the start date of the current streak
  (never null), an optional title and a `show_notifications` flag. The
  invariant `WellFormed` says two things: every row is stored under its own
  key, and every start date is a real calendar date.
- **Dates** (`Dates`, `DateText`): `datetime.date` as `(year, month, day)` with
  a validity predicate. `DayNumber` is the proleptic Gregorian ordinal Python
  uses, so `(today - start).days` becomes `Elapsed(today, start)`.
  `ParseDate` is `strptime(text, "%d/%m/%Y")` on texts that have the
  `DD/MM/YYYY` shape. Its partner `FormatDate` reads back exactly.
- **Routing** (`Routing`): the registration conversation has the steps
  `TITLE` and `DATE`, plus `END` when no conversation is running. The
  conversation handler's filters become predicates on the message text, and
  `Route` picks which handler receives a text. The conversation is tried
  first, then the stand-alone `/days` and `/failed` commands.
- **Handlers** (`Handlers`): `start`, `get_weakness_title`,
  `get_weakness_date`, `failed`, `days` and `daily`, each written as a function
  of the table. A handler that raises returns `Failure`: the record lookup
  found nothing, or strptime rejected the text. The table is then unchanged,
  because the session is never committed.
- **Dispatch** (`Conversation.Step`): one incoming text gives the next
  conversation step, the new table and the outcome. A handler that raises
  leaves the step where it was, since the conversation framework keeps the
  state when a callback raises.
- **Imperative handlers** (`Store.UserStore`): a class whose `users` field the
  handlers update in place. The `daily` loop walks the rows in an unspecified
  order. Each method is proved against the matching function above.

`today` (`datetime.date.today()`) is passed in as a parameter. Outgoing
messages appear only as the day count they carry (`Reported`, `Notice`).

Two facts about the code shape the model:

- Nothing bounds the start date by today. The date step stores any valid
  date, including a future one, and `days` then reports a negative count
  (`Handlers.DaysNegativeIffFutureStart`).
- src/main.py:165 reads `show_notifications`, which src/models.py:9-17 does
  not declare (see Findings). The model adds it as a boolean that starts
  false. A nullable column added without a default would hold NULL, and the
  filter `== True` excludes NULL, so false is equivalent. No handler sets
  the flag.

## Model

| member | source | states |
|---|---|---|
| `Models.NewUserDefaults` | src/models.py:12-17 | a new row is stored under its sender's id, its start date is today, it has no title and its flag is unset |
| `Handlers.Register` | src/main.py:53-75 | `start` adds the sender's id to the table's keys; existing rows are unchanged; an unknown sender gets the default row; the table invariant is kept |
| `Handlers.RegisterAddsAtMostOne` | src/main.py:56-75 | for a new id the table grows by exactly one row; for a known id it is unchanged |
| `Handlers.RegisterIdempotent` | src/main.py:57-75 | a second `start`, on any day, changes nothing |
| `Store.UserStore.Start` | src/main.py:53-85 | the in-place insert equals `Register` of the old table, and the next step is always TITLE |
| `Conversation.StartEntersTitle` | src/main.py:85 | `/start` with no conversation running registers the sender if new and always leads to TITLE |
| `Routing.StartRouteIff` | src/main.py:145-146 | `/start` reaches its handler exactly when no conversation is running |
| `Handlers.RecordTitle` | src/main.py:88-92 | fails exactly for an id with no row; otherwise the row's title becomes the text, the keys are unchanged and the invariant is kept |
| `Handlers.RecordTitleOnlyTitle` | src/main.py:88-92 | the title step changes only the title of the sender's row |
| `Store.UserStore.GetWeaknessTitle` | src/main.py:88-104 | the in-place update equals `RecordTitle`; the step becomes DATE, or the handler raises and nothing changes |
| `Routing.IsText` | src/main.py:149 | `Filters.text` takes every command too, so commands are kept out of the title step only by `~Filters.command` |
| `Routing.IsCommand` | src/main.py:149 | `Filters.command` takes a text only when it opens with `/` and a non-empty command name |
| `Routing.IsCommandNamed` | src/main.py:146 | a `CommandHandler` (here and at src/main.py:159 and 182-183) accepts a command text only for a non-empty lower-case name, compared with the text's command name lower-cased |
| `Routing.TitleRouteIff` | src/main.py:148-150 | a text reaches the title step exactly when it is non-empty and not a command |
| `Conversation.TitleStepStoresText` | src/main.py:88-104 | in TITLE, a non-command text becomes the title verbatim, no other row or field changes, and the next step is DATE |
| `Conversation.TitleStepIgnoresOtherCommands` | src/main.py:147-160 | in TITLE, a command other than `/cancel`, `/days` and `/failed` changes nothing |
| `DateText.ParseDate` | src/main.py:111 | a successful parse always yields a valid calendar date |
| `DateText.ParseFormat` | src/main.py:111 | writing a valid date as DD/MM/YYYY and parsing it gives the same date |
| `DateText.FormatParse` | src/main.py:111 | a text that parses is exactly the DD/MM/YYYY form of its date, so it is read as day/month/year |
| `DateText.ParseFailsIffNoSuchDay` | src/main.py:111 | a DD/MM/YYYY-shaped text fails to parse exactly when its fields name no calendar date |
| `DateText.ParseFirstOfMarch` | src/main.py:111 | "01/03/2024" is read as 1 March 2024 |
| `DateText.ParseLeapDay` | src/main.py:111 | "29/02/2024" is read as the 2024 leap day |
| `DateText.ParseNoLeapDay` | src/main.py:111 | "29/02/2023" fails to parse |
| `DateText.ParseThirtyFirstOfFebruary` | src/main.py:111 | "31/02/2024" has the date shape but fails to parse |
| `DateText.ParseRejectsTrailingNewline` | src/main.py:111 | any text with data after a DD/MM/YYYY date, a final line break included, fails to parse |
| `Routing.MatchesDateRegex` | src/main.py:153 | the date pattern never takes a command, takes texts of 10 characters or 10 plus a final line break, and takes every text `ParseDate` reads |
| `Routing.MatchesSkipRegex` | src/main.py:153 | the skip pattern takes only the `/skip` command, with or without a final line break, and nothing the date pattern takes |
| `Routing.DateRouteIff` | src/main.py:151-156 | a text reaches the date step exactly when it matches the date pattern or the skip pattern |
| `Handlers.RecordStartDate` | src/main.py:107-120 | `/skip` keeps the table; an unparsable text fails with UnparsableDate; a readable date from an unknown sender fails with NotRegistered; on success the keys are unchanged, the row's start date is the parsed date, and the invariant is kept |
| `Handlers.RecordStartDateOnlyDate` | src/main.py:111-118 | a parsed date replaces only the start date of the sender's row |
| `Store.UserStore.GetWeaknessDate` | src/main.py:107-120 | the in-place update equals `RecordStartDate`; the step becomes END, or the handler raises and nothing changes |
| `Conversation.SkipEndsKeepingDate` | src/main.py:107-109 | in DATE, `/skip` ends the conversation and leaves the table unchanged |
| `Conversation.DateStepStoresDate` | src/main.py:111-120 | in DATE, a text matching the pattern that names a real day becomes the start date, and the conversation ends |
| `Conversation.DateStepRejectsNoSuchDay` | src/main.py:107-120 | in DATE, a routed text that strptime rejects raises: nothing is stored and the step stays DATE |
| `Conversation.DateStepFaultsWhenUnregistered` | src/main.py:111-117 | in DATE, a readable date from a sender with no row raises: nothing is stored and the step stays DATE |
| `Conversation.DateRouteAdmitsUnreadable` | src/main.py:151-156 | the date route lets through "31/02/2024" and "/skip" followed by a line break, and neither parses |
| `Routing.CancelRouteIff` | src/main.py:158-160 | `/cancel` reaches the cancel handler exactly when a conversation is running, in either step |
| `Conversation.CancelEndsUnchanged` | src/main.py:123-126 | `/cancel` in TITLE or DATE ends the conversation and leaves the table as it was |
| `Routing.CommandsReachedInEveryPhase` | src/main.py:145-161 | `/days` and `/failed` reach their own handlers in every step, because the conversation does not accept them |
| `Routing.CommandNamesDiffer` | src/main.py:146 | a text names at most one command |
| `Routing.CommandWord` | src/main.py:146 | the command name is the longest prefix of command characters |
| `Routing.CommandRoute` | src/main.py:182-183 | after the conversation declines, `/days` reaches `days` exactly when the text names it, `/failed` reaches `failed` exactly when the text names it, and anything else is unhandled |
| `Routing.Route` | src/main.py:145-161 | the title step handler runs only in TITLE, the date step handler only in DATE, and cancel never runs when no conversation is running |
| `Handlers.DaysHolding` | src/main.py:129-133 | fails exactly for an id with no row, with NotRegistered |
| `Store.UserStore.Days` | src/main.py:129-133 | reports the days from the sender's start date to today, fails exactly for an unknown sender, and changes nothing |
| `Conversation.DaysReportsElapsed` | src/main.py:129-133 | `/days` in any step reports today's ordinal minus the start date's ordinal and changes neither table nor step |
| `Handlers.DaysZeroIffStartedToday` | src/main.py:132 | `days` reports 0 exactly when the start date is today |
| `Handlers.DaysCountsTheSpan` | src/main.py:132 | a streak that started `k` days before today is reported as `k` |
| `Handlers.DaysNegativeIffFutureStart` | src/main.py:132 | the count is negative exactly when the start date is after today |
| `Handlers.ResetStreak` | src/main.py:136-140 | fails exactly for an unknown id; otherwise the keys are unchanged, the row's start date is today, and the invariant is kept |
| `Handlers.ResetStreakOnlyStartDate` | src/main.py:136-140 | `failed` changes only the start date of the sender's row |
| `Handlers.ResetStreakIdempotent` | src/main.py:136-140 | resetting twice on the same day gives the same table as resetting once |
| `Handlers.DaysAfterResetIsZero` | src/main.py:129-140 | right after `failed`, `days` on the same day reports 0 |
| `Store.UserStore.Failed` | src/main.py:136-140 | the in-place update equals `ResetStreak`, or the handler raises and nothing changes |
| `Conversation.FailedRestartsStreak` | src/main.py:136-140 | `/failed` in any step sets the sender's start date to today and leaves the conversation step alone |
| `Conversation.CommandsFaultWhenUnregistered` | src/main.py:129-140 | `/days` and `/failed` from an unknown sender raise and change nothing |
| `Handlers.DailyAsWritten` | src/main.py:163-170 | the daily job as written: it fails only on the missing `show_notifications` attribute, and had the attribute existed it would send exactly the corrected notices |
| `Handlers.DailyNotices` | src/main.py:165-170 | every notice goes to a row with the flag set and carries that row's elapsed day count |
| `Handlers.DailyAsWrittenSendsNothing` | src/main.py:165 | as written, the daily job raises on the undeclared `show_notifications` and sends nothing |
| `Handlers.DailyNoticeIff` | src/main.py:163-170 | a notice goes to a chat exactly when its row has the flag set, and it carries the count `days` reports |
| `Handlers.DailyOneNoticePerChat` | src/main.py:165-170 | no chat gets two notices |
| `Handlers.DailyCountsFlaggedRows` | src/main.py:165-170 | there are exactly as many notices as rows with the flag set |
| `Handlers.DailySkipsUnflagged` | src/main.py:165 | a row with the flag unset gets no notice |
| `Store.UserStore.Daily` | src/main.py:163-170 | the loop sends each chat at most one message, and its messages are exactly the notices the daily job owes; the table is not changed |
| `Conversation.Step` | src/main.py:145-161 | every step keeps the table invariant and never deletes a row; a raising or unhandled text changes neither step nor table; any change is to the sender's row only |
| `Store.UserStore.Handle` | src/main.py:145-161 | running the routed handler in place gives exactly the transition `Step` describes |
| `Conversation.RegistrationScenario` | src/main.py:53-120 | `/start`, "Smoking", "01/03/2024" from a new user creates one row titled "Smoking" that starts on 1 March 2024, and ends the conversation |
| `Dates.DayNumber` | src/main.py:132 | the ordinal (`toordinal`) behind date subtraction, here and at src/main.py:166, lies between 1 and 3652059, Python's `MAXORDINAL` |
| `Dates.Elapsed` | src/main.py:132 | `(today - start).days`, here and at src/main.py:166, lies strictly between -3652059 and 3652059 |
| `Dates.DaysInMonth` | src/main.py:111 | every month has 28 to 31 days, and it has 29 exactly in February of a leap year |
| `Dates.NextDay` | src/main.py:132 | the next day is a valid date after the given one |
| `Dates.NextDayNumber` | src/main.py:132 | the ordinal of the next day is one more |
| `Dates.AddDays` | src/main.py:132 | the date `k` days later is valid and its ordinal is `k` more |
| `Dates.DayOfYearBounds` | src/main.py:132 | a valid date's day of the year lies between 1 and the length of its year |
| `Dates.DaysBeforeYearStep` | src/main.py:132 | the ordinal of 1 January advances by the length of the year before it |
| `Dates.DayNumberMonotone` | src/main.py:132 | an earlier date has a smaller ordinal |
| `Dates.DayNumberInjective` | src/main.py:132 | distinct dates have distinct ordinals |
| `Dates.ElapsedZeroIffSameDay` | src/main.py:132 | the day difference is zero exactly for the same date |
| `Dates.ElapsedNegativeIffFuture` | src/main.py:132 | the day difference is negative exactly when the start date is later |

## Findings

| source | as written | input that shows it | evidently intended | confidence | as-written member | corrected member |
|---|---|---|---|---|---|---|
| src/main.py:165 | `daily` filters on `User.show_notifications`, but the `User` class at src/models.py:9-17 declares no such column. Python raises AttributeError when it looks the attribute up on the class, before any row is read | any table, including one whose rows all wish to be notified | one message per user whose flag is set, carrying that user's day count | high; not executed | `Handlers.DailyAsWrittenSendsNothing` | `Handlers.DailyNoticeIff` |

## Left out

- Telegram transport is not modelled. This covers reply texts, reply keyboards, `send_message` delivery, the webhook and `start_bot`. Outgoing messages appear only as the numbers they carry.
- The SQLAlchemy session and the `db` and `create_db` modules are not part of this model. An in-memory map stands in for the table, and a handler that raises commits nothing.
- The 256-character limit of `weakness_title` and the width of the `Integer` key are not modelled. Whether they are enforced depends on the database backend, which is not part of this model.
- Environment variables, the port and token configuration, and logging are left out. They are process set-up.
- The 08:00 daily trigger is left out. Only the body of `daily` is modelled.
- An overlap between the daily job and a conversation in progress is left out. The ordering of those is up to the framework.
- The conversation is keyed per chat and user, and that key is not modelled. Each `Step` takes the sender's current step as a parameter.
- Non-text messages and edited messages are not modelled. The input is always the text of a new message.
- Errors are not logged. A handler that raises appears only as a `Faulted` outcome.
- `Routing.IsCommand`: Telegram's own detection of a bot command is approximated as "/" followed by a letter, digit or underscore. The 32-character limit on command names is not modelled.
- `Routing.IsCommandNamed`: a command addressed to a bot by name (`/cancel@somebot`) is never recognised. Matching it would need the bot's username, which is transport configuration.
- `Routing.MatchesDateRegex`: only ASCII digits are accepted. Python's `\d`, and strptime after it, also accept other Unicode decimal digits.
- `DateText.ParseDate`: one-digit and space-padded days and months, which strptime also accepts, return `None`. The date route never delivers such texts.
- `Store.UserStore.Daily`: the order in which the query yields rows is left unspecified. The contract states which messages are sent, not their order.
