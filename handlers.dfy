/** What each bot handler does to the `users` table, as functions of the
    table before the call. A handler that raises leaves the table as it was
    (its session is never committed); that is the `Failure` case. */
module Handlers {
  import opened Wrappers
  import opened Dates
  import opened DateText
  import opened Models

  /** Why a handler raised.
      NotRegistered: the lookup found no row and the handler used it anyway.
      UnparsableDate: strptime rejected the text.
      MissingColumn: the query named an attribute `User` does not declare. */
  datatype Fault = NotRegistered | UnparsableDate | MissingColumn(name: string)

  /** One message of the daily job: the chat it goes to and the day count it
      carries. */
  datatype Notice = Notice(chatId: int, daysHolding: int)

  /** `start`: insert a row for a sender the table does not know yet; a known
      sender's row is left alone. */
  function Register(users: Table, sender: Sender, today: Date): (r: Table)
    ensures r.Keys == users.Keys + {sender.id}
    ensures forall id :: id in users ==> r[id] == users[id]
    ensures sender.id !in users ==> r[sender.id] == NewUser(sender, today)
    ensures WellFormed(users) && ValidDate(today) ==> WellFormed(r)
  {
    if sender.id in users then users else users[sender.id := NewUser(sender, today)]
  }

  /** `get_weakness_title`: store the message text as the title of the
      sender's row. */
  function RecordTitle(users: Table, id: int, text: string): (r: Result<Table, Fault>)
    ensures r.Failure? <==> id !in users
    ensures r.Failure? ==> r.error == NotRegistered
    ensures r.Success? ==> r.value.Keys == users.Keys
    ensures r.Success? ==> r.value[id].weakness_title == Some(text)
    ensures r.Success? ==> WellFormed(users) ==> WellFormed(r.value)
  {
    if id !in users then Failure(NotRegistered)
    else Success(users[id := users[id].(weakness_title := Some(text))])
  }

  /** `get_weakness_date`: `/skip` keeps the start date; any other text is
      read with strptime first (raising if it is no date) and then stored as
      the start date of the sender's row. */
  function RecordStartDate(users: Table, id: int, text: string): (r: Result<Table, Fault>)
    ensures text == "/skip" ==> r == Success(users)
    ensures text != "/skip" && ParseDate(text).None? ==> r == Failure(UnparsableDate)
    ensures text != "/skip" && ParseDate(text).Some? && id !in users ==> r == Failure(NotRegistered)
    ensures r.Success? ==> r.value.Keys == users.Keys
    ensures r.Success? && text != "/skip" ==> id in users && r.value[id].weakness_start_date == ParseDate(text).value
    ensures r.Success? ==> WellFormed(users) ==> WellFormed(r.value)
  {
    if text == "/skip" then Success(users)
    else
      match ParseDate(text)
      case None => Failure(UnparsableDate)
      case Some(d) =>
        if id !in users then Failure(NotRegistered)
        else Success(users[id := users[id].(weakness_start_date := d)])
  }

  /** `failed`: the sender's streak starts again today. */
  function ResetStreak(users: Table, id: int, today: Date): (r: Result<Table, Fault>)
    ensures r.Failure? <==> id !in users
    ensures r.Failure? ==> r.error == NotRegistered
    ensures r.Success? ==> r.value.Keys == users.Keys && r.value[id].weakness_start_date == today
    ensures r.Success? ==> WellFormed(users) && ValidDate(today) ==> WellFormed(r.value)
  {
    if id !in users then Failure(NotRegistered)
    else Success(users[id := users[id].(weakness_start_date := today)])
  }

  /** `days`: the number of days from the sender's start date to today. */
  function DaysHolding(users: Table, id: int, today: Date): (r: Result<int, Fault>)
    requires WellFormed(users) && ValidDate(today)
    ensures r.Failure? <==> id !in users
    ensures r.Failure? ==> r.error == NotRegistered
  {
    if id !in users then Failure(NotRegistered)
    else Success(Elapsed(today, users[id].weakness_start_date))
  }

  /** The message the daily job sends for row `id`. */
  function NoticeFor(users: Table, today: Date, id: int): Notice
    requires WellFormed(users) && ValidDate(today) && id in users
  {
    Notice(users[id].telegram_id, Elapsed(today, users[id].weakness_start_date))
  }

  /** The messages the daily job sends: one per row whose flag is set,
      addressed to the row's Telegram id. */
  function DailyNotices(users: Table, today: Date): (r: set<Notice>)
    requires WellFormed(users) && ValidDate(today)
    ensures forall n :: n in r ==>
      && n.chatId in users
      && users[n.chatId].show_notifications
      && n.daysHolding == Elapsed(today, users[n.chatId].weakness_start_date)
  {
    set id | id in users && users[id].show_notifications :: NoticeFor(users, today, id)
  }

  /** `daily` as the source has it: the filter reads `User.show_notifications`,
      which Python looks up on the mapped class before any row is fetched. */
  function DailyAsWritten(users: Table, today: Date): (r: Result<set<Notice>, Fault>)
    requires WellFormed(users) && ValidDate(today)
    ensures r.Success? ==> r.value == DailyNotices(users, today)
    ensures r.Failure? ==> r.error == MissingColumn("show_notifications")
  {
    if "show_notifications" in DeclaredColumns then Success(DailyNotices(users, today))
    else Failure(MissingColumn("show_notifications"))
  }

  /** As written, the daily job raises before sending anything, whatever the
      table holds. */
  lemma DailyAsWrittenSendsNothing(users: Table, today: Date)
    requires WellFormed(users) && ValidDate(today)
    ensures DailyAsWritten(users, today) == Failure(MissingColumn("show_notifications"))
  {
    assert "show_notifications" !in DeclaredColumns;
  }

  // ----- start -----

  /** `start` for a new id adds exactly one row; for a known id it changes
      nothing. */
  lemma RegisterAddsAtMostOne(users: Table, sender: Sender, today: Date)
    ensures sender.id !in users ==> |Register(users, sender, today)| == |users| + 1
    ensures sender.id in users ==> Register(users, sender, today) == users
  {
    var r := Register(users, sender, today);
    if sender.id !in users {
      assert r.Keys == users.Keys + {sender.id};
    } else {
      assert r.Keys == users.Keys;
    }
  }

  /** A second `start`, on any day, finds the row and changes nothing. */
  lemma RegisterIdempotent(users: Table, sender: Sender, today: Date, later: Date)
    ensures Register(Register(users, sender, today), sender, later) == Register(users, sender, today)
  {
  }

  // ----- title step -----

  /** The title step changes the title of the sender's row and nothing else. */
  lemma RecordTitleOnlyTitle(users: Table, id: int, text: string)
    requires id in users
    ensures RecordTitle(users, id, text) == Success(users[id := users[id].(weakness_title := Some(text))])
    ensures forall other :: other in users && other != id ==> RecordTitle(users, id, text).value[other] == users[other]
  {
  }

  // ----- date step -----

  /** A date that parses becomes the start date of the sender's row, and only
      that changes. */
  lemma RecordStartDateOnlyDate(users: Table, id: int, text: string, d: Date)
    requires id in users && ParseDate(text) == Some(d)
    ensures RecordStartDate(users, id, text) == Success(users[id := users[id].(weakness_start_date := d)])
  {
  }

  // ----- failed -----

  /** Resetting twice on the same day leaves the same table as resetting once. */
  lemma ResetStreakIdempotent(users: Table, id: int, today: Date)
    requires id in users
    ensures ResetStreak(ResetStreak(users, id, today).value, id, today) == ResetStreak(users, id, today)
  {
    var once := ResetStreak(users, id, today).value;
    assert once[id].(weakness_start_date := today) == once[id];
    assert once[id := once[id]] == once;
  }

  /** `failed` touches only the start date of the sender's row. */
  lemma ResetStreakOnlyStartDate(users: Table, id: int, today: Date)
    requires id in users
    ensures ResetStreak(users, id, today) == Success(users[id := users[id].(weakness_start_date := today)])
    ensures forall other :: other in users && other != id ==> ResetStreak(users, id, today).value[other] == users[other]
  {
  }

  // ----- days -----

  /** Right after `failed`, `days` on the same day reports 0. */
  lemma DaysAfterResetIsZero(users: Table, id: int, today: Date)
    requires WellFormed(users) && ValidDate(today) && id in users
    ensures DaysHolding(ResetStreak(users, id, today).value, id, today) == Success(0)
  {
  }

  /** `days` reports 0 exactly on the start date itself. */
  lemma DaysZeroIffStartedToday(users: Table, id: int, today: Date)
    requires WellFormed(users) && ValidDate(today) && id in users
    ensures DaysHolding(users, id, today) == Success(0) <==> users[id].weakness_start_date == today
  {
    ElapsedZeroIffSameDay(today, users[id].weakness_start_date);
  }

  /** A streak started `k` days before today is reported as `k` days. */
  lemma DaysCountsTheSpan(users: Table, id: int, k: nat, today: Date)
    requires WellFormed(users) && id in users
    requires DayNumber(users[id].weakness_start_date) + k <= DayNumber(MaxDate)
    requires today == AddDays(users[id].weakness_start_date, k)
    ensures DaysHolding(users, id, today) == Success(k)
  {
  }

  /** Nothing stops a start date in the future: `days` then reports a
      negative count, and only then. */
  lemma DaysNegativeIffFutureStart(users: Table, id: int, today: Date)
    requires WellFormed(users) && ValidDate(today) && id in users
    ensures DaysHolding(users, id, today).value < 0 <==> Before(today, users[id].weakness_start_date)
  {
    ElapsedNegativeIffFuture(today, users[id].weakness_start_date);
  }

  // ----- daily -----

  /** A notice goes to a chat exactly when that chat's row has the flag set,
      and it carries the count `days` would report. */
  lemma DailyNoticeIff(users: Table, today: Date, n: Notice)
    requires WellFormed(users) && ValidDate(today)
    ensures n in DailyNotices(users, today) <==>
      && n.chatId in users
      && users[n.chatId].show_notifications
      && DaysHolding(users, n.chatId, today) == Success(n.daysHolding)
  {
    if n.chatId in users && users[n.chatId].show_notifications
       && DaysHolding(users, n.chatId, today) == Success(n.daysHolding) {
      assert n == NoticeFor(users, today, n.chatId);
    }
  }

  /** No chat gets two notices. */
  lemma DailyOneNoticePerChat(users: Table, today: Date, n: Notice, m: Notice)
    requires WellFormed(users) && ValidDate(today)
    requires n in DailyNotices(users, today) && m in DailyNotices(users, today)
    requires n.chatId == m.chatId
    ensures n == m
  {
  }

  /** The daily job sends as many notices as there are flagged rows. */
  lemma DailyCountsFlaggedRows(users: Table, today: Date)
    requires WellFormed(users) && ValidDate(today)
    ensures |DailyNotices(users, today)| == |set id | id in users && users[id].show_notifications|
  {
    var flagged := set id | id in users && users[id].show_notifications;
    NoticeCount(users, today, flagged);
    assert DailyNotices(users, today) == set id | id in flagged :: NoticeFor(users, today, id);
  }

  lemma {:induction false} NoticeCount(users: Table, today: Date, ids: set<int>)
    requires WellFormed(users) && ValidDate(today)
    requires forall id :: id in ids ==> id in users
    ensures |set id | id in ids :: NoticeFor(users, today, id)| == |ids|
    decreases ids
  {
    if |ids| > 0 {
      assert exists y :: y in ids by {
        if forall y :: y !in ids { assert false; }
      }
      var x :| x in ids;
      var rest := ids - {x};
      NoticeCount(users, today, rest);
      var all := set id | id in ids :: NoticeFor(users, today, id);
      var restNotices := set id | id in rest :: NoticeFor(users, today, id);
      assert all == restNotices + {NoticeFor(users, today, x)};
      assert NoticeFor(users, today, x) !in restNotices;
    }
  }

  /** Rows whose flag is unset get nothing. */
  lemma DailySkipsUnflagged(users: Table, today: Date, id: int)
    requires WellFormed(users) && ValidDate(today)
    requires id in users && !users[id].show_notifications
    ensures forall n :: n in DailyNotices(users, today) ==> n.chatId != id
  {
  }
}
