/** One incoming text, from routing to the handler's effect: the next step of
    the sender's registration conversation, the new table and what the user
    sees. A handler that raises changes neither the table nor the step. */
module Conversation {
  import opened Wrappers
  import opened Dates
  import opened DateText
  import opened Models
  import opened Routing
  import opened Handlers

  /** Replied: the handler ran to the end. Reported: `days` ran and told the
      user this count. Faulted: the handler raised. Ignored: no handler took
      the text. */
  datatype Outcome = Replied | Reported(days: int) | Faulted(fault: Fault) | Ignored

  datatype Transition = Transition(phase: Phase, users: Table, outcome: Outcome)

  /** The bot's response to `text` from `sender`, whose conversation is at
      `phase`. */
  function Step(phase: Phase, sender: Sender, text: string, users: Table, today: Date): (t: Transition)
    requires WellFormed(users) && ValidDate(today)
    ensures WellFormed(t.users)
    ensures users.Keys <= t.users.Keys
    ensures t.outcome.Faulted? || t.outcome.Ignored? ==> t.phase == phase && t.users == users
    ensures t.users != users ==> sender.id in t.users && t.users == users[sender.id := t.users[sender.id]]
  {
    match Route(phase, text)
    case StartHandler =>
      Transition(TITLE, Register(users, sender, today), Replied)
    case TitleHandler =>
      (match RecordTitle(users, sender.id, text)
       case Success(u) => Transition(DATE, u, Replied)
       case Failure(f) => Transition(phase, users, Faulted(f)))
    case DateHandler =>
      (match RecordStartDate(users, sender.id, text)
       case Success(u) => Transition(END, u, Replied)
       case Failure(f) => Transition(phase, users, Faulted(f)))
    case CancelHandler =>
      Transition(END, users, Replied)
    case DaysHandler =>
      (match DaysHolding(users, sender.id, today)
       case Success(n) => Transition(phase, users, Reported(n))
       case Failure(f) => Transition(phase, users, Faulted(f)))
    case FailedHandler =>
      (match ResetStreak(users, sender.id, today)
       case Success(u) => Transition(phase, u, Replied)
       case Failure(f) => Transition(phase, users, Faulted(f)))
    case Unhandled =>
      Transition(phase, users, Ignored)
  }

  /** `/start` always opens the title step, registering the sender if new. */
  lemma StartEntersTitle(sender: Sender, text: string, users: Table, today: Date)
    requires WellFormed(users) && ValidDate(today)
    requires IsCommandNamed(text, "start")
    ensures Step(END, sender, text, users, today) == Transition(TITLE, Register(users, sender, today), Replied)
  {
  }

  /** In the title step a text that is not a command becomes the title of the
      sender's row, verbatim, and the date step follows. */
  lemma TitleStepStoresText(sender: Sender, text: string, users: Table, today: Date)
    requires WellFormed(users) && ValidDate(today) && sender.id in users
    requires IsText(text) && !IsCommand(text)
    ensures Step(TITLE, sender, text, users, today)
      == Transition(DATE, users[sender.id := users[sender.id].(weakness_title := Some(text))], Replied)
  {
  }

  /** In the title step a command other than `/cancel`, `/days` and `/failed`
      is not handled: nothing changes. */
  lemma TitleStepIgnoresOtherCommands(sender: Sender, text: string, users: Table, today: Date)
    requires WellFormed(users) && ValidDate(today)
    requires IsCommand(text)
    requires !IsCommandNamed(text, "cancel") && !IsCommandNamed(text, "days") && !IsCommandNamed(text, "failed")
    ensures Step(TITLE, sender, text, users, today) == Transition(TITLE, users, Ignored)
  {
  }

  /** `/skip` ends the conversation and keeps the start date, registered or not. */
  lemma SkipEndsKeepingDate(sender: Sender, users: Table, today: Date)
    requires WellFormed(users) && ValidDate(today)
    ensures Step(DATE, sender, "/skip", users, today) == Transition(END, users, Replied)
  {
    assert Route(DATE, "/skip") == DateHandler;
  }

  /** A date-pattern text naming a real day becomes the start date, read as
      day/month/year, and the conversation ends. */
  lemma DateStepStoresDate(sender: Sender, text: string, d: Date, users: Table, today: Date)
    requires WellFormed(users) && ValidDate(today) && sender.id in users
    requires MatchesDateRegex(text) && ParseDate(text) == Some(d)
    ensures Step(DATE, sender, text, users, today)
      == Transition(END, users[sender.id := users[sender.id].(weakness_start_date := d)], Replied)
  {
    RecordStartDateOnlyDate(users, sender.id, text, d);
  }

  /** A text the date route lets through but strptime rejects (the 31st of
      February, a trailing line break) raises: nothing is stored and the
      conversation stays in the date step. */
  lemma DateStepRejectsNoSuchDay(sender: Sender, text: string, users: Table, today: Date)
    requires WellFormed(users) && ValidDate(today)
    requires Route(DATE, text) == DateHandler && text != "/skip" && ParseDate(text).None?
    ensures Step(DATE, sender, text, users, today) == Transition(DATE, users, Faulted(UnparsableDate))
  {
  }

  /** A date from a sender with no row raises once the date is read:
      nothing is stored and the step stays DATE. */
  lemma DateStepFaultsWhenUnregistered(sender: Sender, text: string, users: Table, today: Date)
    requires WellFormed(users) && ValidDate(today) && sender.id !in users
    requires MatchesDateRegex(text) && ParseDate(text).Some?
    ensures Step(DATE, sender, text, users, today) == Transition(DATE, users, Faulted(NotRegistered))
  {
  }

  /** The route admits every text the date step is written for, plus texts
      the handler cannot read, such as these two. */
  lemma DateRouteAdmitsUnreadable()
    ensures Route(DATE, "31/02/2024") == DateHandler && ParseDate("31/02/2024").None?
    ensures Route(DATE, "/skip\n") == DateHandler && ParseDate("/skip\n").None?
  {
    ParseThirtyFirstOfFebruary();
  }

  /** `/cancel` in either step ends the conversation and leaves the table as
      it was. */
  lemma CancelEndsUnchanged(phase: Phase, sender: Sender, text: string, users: Table, today: Date)
    requires WellFormed(users) && ValidDate(today)
    requires phase != END && IsCommandNamed(text, "cancel")
    ensures Step(phase, sender, text, users, today) == Transition(END, users, Replied)
  {
    CancelRouteIff(phase, text);
  }

  /** `/days` answers in any step with the elapsed count and changes nothing. */
  lemma DaysReportsElapsed(phase: Phase, sender: Sender, text: string, users: Table, today: Date)
    requires WellFormed(users) && ValidDate(today) && sender.id in users
    requires IsCommandNamed(text, "days")
    ensures Step(phase, sender, text, users, today)
      == Transition(phase, users, Reported(Elapsed(today, users[sender.id].weakness_start_date)))
  {
    CommandsReachedInEveryPhase(phase, text);
  }

  /** `/failed` in any step restarts the sender's streak today; the
      conversation step is untouched. */
  lemma FailedRestartsStreak(phase: Phase, sender: Sender, text: string, users: Table, today: Date)
    requires WellFormed(users) && ValidDate(today) && sender.id in users
    requires IsCommandNamed(text, "failed")
    ensures Step(phase, sender, text, users, today)
      == Transition(phase, users[sender.id := users[sender.id].(weakness_start_date := today)], Replied)
  {
    CommandsReachedInEveryPhase(phase, text);
    assert !IsCommandNamed(text, "days") by {
      if IsCommandNamed(text, "days") { CommandNamesDiffer(text, "days", "failed"); }
    }
  }

  /** `/days` and `/failed` from someone with no row raise and change nothing. */
  lemma CommandsFaultWhenUnregistered(phase: Phase, sender: Sender, text: string, users: Table, today: Date)
    requires WellFormed(users) && ValidDate(today) && sender.id !in users
    requires IsCommandNamed(text, "days") || IsCommandNamed(text, "failed")
    ensures Step(phase, sender, text, users, today) == Transition(phase, users, Faulted(NotRegistered))
  {
    CommandsReachedInEveryPhase(phase, text);
  }

  /** A new user's whole registration: `/start`, a title, a date. */
  lemma RegistrationScenario(sender: Sender, users: Table, today: Date)
    requires WellFormed(users) && ValidDate(today) && sender.id !in users
    ensures
      var t1 := Step(END, sender, "/start", users, today);
      var t2 := Step(t1.phase, sender, "Smoking", t1.users, today);
      var t3 := Step(t2.phase, sender, "01/03/2024", t2.users, today);
      && t1.phase == TITLE && t2.phase == DATE && t3.phase == END
      && t3.users == users[sender.id := NewUser(sender, today).(weakness_title := Some("Smoking"), weakness_start_date := Date(2024, 3, 1))]
  {
    assert "/start"[1..] == "start";
    assert CommandWord("start") == "start";
    assert AsciiLower("start") == "start";
    StartEntersTitle(sender, "/start", users, today);
    var u1 := Register(users, sender, today);
    TitleStepStoresText(sender, "Smoking", u1, today);
    var u2 := u1[sender.id := u1[sender.id].(weakness_title := Some("Smoking"))];
    ParseFirstOfMarch();
    DateStepStoresDate(sender, "01/03/2024", Date(2024, 3, 1), u2, today);
  }
}
