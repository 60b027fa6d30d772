/** The handlers as the bot runs them: each opens the table, reads or
    updates one row in place and commits. Every method is proved to do what
    the matching function of `Handlers` says, and `Handle` to do what
    `Conversation.Step` says. */
module Store {
  import opened Wrappers
  import opened Dates
  import opened DateText
  import opened Models
  import opened Routing
  import opened Handlers
  import opened Conversation

  class UserStore {
    var users: Table

    ghost predicate Valid()
      reads this
    {
      WellFormed(users)
    }

    constructor ()
      ensures Valid() && users == map[]
    {
      users := map[];
    }

    /** `start`: look the sender up, insert a row if there is none, and go
        to the title step. */
    method Start(sender: Sender, today: Date) returns (next: Phase)
      requires Valid() && ValidDate(today)
      modifies this
      ensures Valid()
      ensures users == Register(old(users), sender, today)
      ensures next == TITLE
    {
      if sender.id !in users {
        var user := NewUser(sender, today);
        users := users[sender.id := user];
      }
      next := TITLE;
    }

    /** `get_weakness_title`: overwrite the title of the sender's row with
        the text, then go to the date step. */
    method GetWeaknessTitle(sender: Sender, text: string) returns (next: Result<Phase, Fault>)
      requires Valid()
      modifies this
      ensures Valid()
      ensures RecordTitle(old(users), sender.id, text).Success? ==>
        users == RecordTitle(old(users), sender.id, text).value && next == Success(DATE)
      ensures RecordTitle(old(users), sender.id, text).Failure? ==>
        users == old(users) && next == Failure(RecordTitle(old(users), sender.id, text).error)
    {
      if sender.id !in users {
        return Failure(NotRegistered);
      }
      var user := users[sender.id];
      users := users[sender.id := user.(weakness_title := Some(text))];
      next := Success(DATE);
    }

    /** `get_weakness_date`: end at once on `/skip`; otherwise parse the
        text, then overwrite the start date of the sender's row and end. */
    method GetWeaknessDate(sender: Sender, text: string) returns (next: Result<Phase, Fault>)
      requires Valid()
      modifies this
      ensures Valid()
      ensures RecordStartDate(old(users), sender.id, text).Success? ==>
        users == RecordStartDate(old(users), sender.id, text).value && next == Success(END)
      ensures RecordStartDate(old(users), sender.id, text).Failure? ==>
        users == old(users) && next == Failure(RecordStartDate(old(users), sender.id, text).error)
    {
      if text == "/skip" {
        return Success(END);
      }
      var parsed := ParseDate(text);
      if parsed.None? {
        return Failure(UnparsableDate);
      }
      if sender.id !in users {
        return Failure(NotRegistered);
      }
      var user := users[sender.id];
      users := users[sender.id := user.(weakness_start_date := parsed.value)];
      next := Success(END);
    }

    /** `days`: the days from the sender's start date to today. */
    method Days(sender: Sender, today: Date) returns (held: Result<int, Fault>)
      requires Valid() && ValidDate(today)
      ensures held.Failure? <==> sender.id !in users
      ensures held.Failure? ==> held.error == NotRegistered
      ensures held.Success? ==> held.value == Elapsed(today, users[sender.id].weakness_start_date)
    {
      if sender.id !in users {
        return Failure(NotRegistered);
      }
      var user := users[sender.id];
      held := Success(Elapsed(today, user.weakness_start_date));
    }

    /** `failed`: the sender's streak starts again today. */
    method Failed(sender: Sender, today: Date) returns (done: Result<(), Fault>)
      requires Valid() && ValidDate(today)
      modifies this
      ensures Valid()
      ensures ResetStreak(old(users), sender.id, today).Success? ==>
        users == ResetStreak(old(users), sender.id, today).value && done == Success(())
      ensures ResetStreak(old(users), sender.id, today).Failure? ==>
        users == old(users) && done == Failure(NotRegistered)
    {
      if sender.id !in users {
        return Failure(NotRegistered);
      }
      var user := users[sender.id];
      users := users[sender.id := user.(weakness_start_date := today)];
      done := Success(());
    }

    /** `daily`: walk the rows whose flag is set, in whatever order the query
        yields them, and send each its day count. */
    method Daily(today: Date) returns (sent: seq<Notice>)
      requires Valid() && ValidDate(today)
      ensures forall i, j :: 0 <= i < j < |sent| ==> sent[i].chatId != sent[j].chatId
      ensures forall n :: n in sent <==> n in DailyNotices(users, today)
    {
      sent := [];
      var pending := users.Keys;
      while pending != {}
        invariant pending <= users.Keys
        invariant forall i, j :: 0 <= i < j < |sent| ==> sent[i].chatId != sent[j].chatId
        invariant forall n :: n in sent ==> n in DailyNotices(users, today) && n.chatId !in pending
        invariant forall id :: id in users && id !in pending && users[id].show_notifications ==>
          NoticeFor(users, today, id) in sent
        decreases pending
      {
        assert exists y :: y in pending by {
          if forall y :: y !in pending { assert false; }
        }
        var id :| id in pending;
        var user := users[id];
        if user.show_notifications {
          sent := sent + [Notice(user.telegram_id, Elapsed(today, user.weakness_start_date))];
        }
        pending := pending - {id};
      }
      forall n | n in DailyNotices(users, today) ensures n in sent {
        DailyNoticeIff(users, today, n);
      }
    }

    /** Route one text and run the handler it reaches. */
    method Handle(phase: Phase, sender: Sender, text: string, today: Date) returns (t: Transition)
      requires Valid() && ValidDate(today)
      modifies this
      ensures Valid()
      ensures t == Step(phase, sender, text, old(users), today)
      ensures users == t.users
    {
      var handler := Route(phase, text);
      match handler {
        case StartHandler =>
          var next := Start(sender, today);
          t := Transition(next, users, Replied);
        case TitleHandler =>
          var r := GetWeaknessTitle(sender, text);
          t := if r.Success? then Transition(r.value, users, Replied) else Transition(phase, users, Faulted(r.error));
        case DateHandler =>
          var r := GetWeaknessDate(sender, text);
          t := if r.Success? then Transition(r.value, users, Replied) else Transition(phase, users, Faulted(r.error));
        case CancelHandler =>
          t := Transition(END, users, Replied);
        case DaysHandler =>
          var r := Days(sender, today);
          t := if r.Success? then Transition(phase, users, Reported(r.value)) else Transition(phase, users, Faulted(r.error));
        case FailedHandler =>
          var r := Failed(sender, today);
          t := if r.Success? then Transition(phase, users, Replied) else Transition(phase, users, Faulted(r.error));
        case Unhandled =>
          t := Transition(phase, users, Ignored);
      }
    }
  }
}
