/** The `users` table: one row per Telegram user, keyed by the Telegram id. */
module Models {
  import opened Wrappers
  import opened Dates

  /** The Telegram account a message comes from, as the handlers see it. */
  datatype Sender = Sender(
    id: int,
    username: Option<string>,
    firstName: Option<string>,
    lastName: Option<string>)

  /** One row of `users`. The names are optional and never checked. The start
      date is never null. The title is absent until the title step runs.
      `show_notifications` is read by the daily job but is not one of the
      declared columns; here it is a plain flag that no handler sets. */
  datatype User = User(
    telegram_id: int,
    username: Option<string>,
    first_name: Option<string>,
    last_name: Option<string>,
    weakness_start_date: Date,
    weakness_title: Option<string>,
    show_notifications: bool)

  /** The columns the `User` class actually declares. */
  const DeclaredColumns: set<string> :=
    {"telegram_id", "username", "first_name", "last_name", "weakness_start_date", "weakness_title"}

  /** The table: the primary key maps to at most one row. */
  type Table = map<int, User>

  /** Every row is stored under its own primary key. */
  predicate KeyedById(users: Table) {
    forall id :: id in users ==> users[id].telegram_id == id
  }

  /** The table invariant every handler keeps: rows sit under their own key
      and every start date is a date `datetime.date` can hold. */
  predicate WellFormed(users: Table) {
    && KeyedById(users)
    && forall id :: id in users ==> ValidDate(users[id].weakness_start_date)
  }

  /** The row `start` inserts for a new sender: the profile copied as given,
      the start date left to today, no title yet, and the flag unset (a
      nullable column added without a default would read as NULL, which the
      daily filter `== True` excludes). */
  function NewUser(sender: Sender, today: Date): (u: User)
  {
    User(sender.id, sender.username, sender.firstName, sender.lastName, today, None, false)
  }

  /** A new row is keyed by the sender, starts today and has no title. */
  lemma NewUserDefaults(sender: Sender, today: Date)
    requires ValidDate(today)
    ensures WellFormed(map[sender.id := NewUser(sender, today)])
    ensures NewUser(sender, today).weakness_start_date == today
    ensures NewUser(sender, today).weakness_title.None?
    ensures !NewUser(sender, today).show_notifications
  {
  }
}
