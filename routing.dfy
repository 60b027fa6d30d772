/** Which handler an incoming text reaches. The registration conversation
    is tried first: its entry point when no conversation is running, the
    handler of the current step and then the `/cancel` fallback while one
    is. Only when it declines are the `/days` and `/failed` commands tried. */
module Routing {
  import DateText

  /** The step of a user's registration conversation: the two named states
      of `DescriptionWeakness`, and END when no conversation is running. */
  datatype Phase = TITLE | DATE | END

  datatype Handler =
    | StartHandler
    | TitleHandler
    | DateHandler
    | CancelHandler
    | DaysHandler
    | FailedHandler
    | Unhandled

  /** A character Telegram allows in a bot command's name. */
  predicate IsCommandChar(c: char) {
    'a' <= c <= 'z' || 'A' <= c <= 'Z' || '0' <= c <= '9' || c == '_'
  }

  /** The longest prefix of `s` made of command characters. */
  function CommandWord(s: string): (w: string)
    ensures |w| <= |s| && w == s[..|w|]
    ensures forall i :: 0 <= i < |w| ==> IsCommandChar(w[i])
    ensures |w| < |s| ==> !IsCommandChar(s[|w|])
  {
    if s != [] && IsCommandChar(s[0]) then [s[0]] + CommandWord(s[1..]) else []
  }

  function LowerChar(c: char): char {
    if 'A' <= c <= 'Z' then ((c as int) - ('A' as int) + ('a' as int)) as char else c
  }

  function AsciiLower(s: string): (r: string)
    ensures |r| == |s|
    ensures forall i :: 0 <= i < |s| ==> r[i] == LowerChar(s[i])
  {
    if s == [] then [] else [LowerChar(s[0])] + AsciiLower(s[1..])
  }

  /** Lower-casing twice is lower-casing once. */
  lemma LowerIdempotent(s: string)
    ensures AsciiLower(AsciiLower(s)) == AsciiLower(s)
  {
    var once := AsciiLower(s);
    assert forall i :: 0 <= i < |once| ==> AsciiLower(once)[i] == once[i];
  }

  /** Telegram marks a text as a bot command when it opens with `/` and a
      command name (`Filters.command`). */
  predicate IsCommand(text: string)
    ensures IsCommand(text) ==> |text| >= 2 && CommandWord(text[1..]) != []
  {
    |text| >= 2 && text[0] == '/' && IsCommandChar(text[1])
  }

  /** `CommandHandler(name)` accepts a command whose name, lower-cased, is
      `name`, whatever follows it (the arguments). Only a non-empty,
      lower-case name can ever match. */
  predicate IsCommandNamed(text: string, name: string)
    ensures IsCommandNamed(text, name) ==> IsCommand(text) && name != [] && AsciiLower(name) == name
  {
    && IsCommand(text)
    && var w := CommandWord(text[1..]);
    LowerIdempotent(w);
    && AsciiLower(w) == name
    && !(1 + |w| < |text| && text[1 + |w|] == '@')
  }

  /** `Filters.text`: a message that carries text. Every command carries
      text, so it is `~Filters.command` that keeps commands out of the title
      step. */
  predicate IsText(text: string)
    ensures IsCommand(text) ==> IsText(text)
  {
    text != []
  }

  /** `^\d{2}\/\d{2}\/\d{4}$`, searched with Python's `re`: `$` also matches
      just before a final line break. Such a text is never a command, and
      every text `ParseDate` reads passes it. */
  predicate MatchesDateRegex(text: string)
    ensures MatchesDateRegex(text) ==> !IsCommand(text) && (|text| == 10 || |text| == 11)
    ensures DateText.ParseDate(text).Some? ==> MatchesDateRegex(text)
  {
    || DateText.IsDateShape(text)
    || (|text| == 11 && text[10] == '\n' && DateText.IsDateShape(text[..10]))
  }

  /** `^/skip$`, with the same reading of `$`: it takes only the `/skip`
      command, and never a text the date pattern takes. */
  predicate MatchesSkipRegex(text: string)
    ensures MatchesSkipRegex(text) ==> IsCommandNamed(text, "skip") && !MatchesDateRegex(text)
  {
    SkipIsNotCancel();
    text == "/skip" || text == "/skip\n"
  }

  /** The handler that receives `text` from a user in conversation step
      `phase`, or Unhandled when none accepts it. */
  function Route(phase: Phase, text: string): (h: Handler)
    ensures h == TitleHandler ==> phase == TITLE
    ensures h == DateHandler ==> phase == DATE
    ensures h == CancelHandler ==> phase != END
  {
    match phase
    case END =>
      if IsCommandNamed(text, "start") then StartHandler else CommandRoute(text)
    case TITLE =>
      if IsText(text) && !IsCommand(text) then TitleHandler
      else if IsCommandNamed(text, "cancel") then CancelHandler
      else CommandRoute(text)
    case DATE =>
      if MatchesDateRegex(text) || MatchesSkipRegex(text) then DateHandler
      else if IsCommandNamed(text, "cancel") then CancelHandler
      else CommandRoute(text)
  }

  /** The stand-alone command handlers, tried after the conversation. */
  function CommandRoute(text: string): (h: Handler)
    ensures h == DaysHandler <==> IsCommandNamed(text, "days")
    ensures h == FailedHandler <==> IsCommandNamed(text, "failed")
    ensures h == DaysHandler || h == FailedHandler || h == Unhandled
  {
    if IsCommandNamed(text, "days") then DaysHandler
    else if IsCommandNamed(text, "failed") then FailedHandler
    else Unhandled
  }

  /** A command names exactly one command. */
  lemma {:induction false} CommandNamesDiffer(text: string, a: string, b: string)
    requires IsCommandNamed(text, a) && IsCommandNamed(text, b)
    ensures a == b
  {
  }

  lemma SkipIsNotCancel()
    ensures IsCommandNamed("/skip", "skip") && !IsCommandNamed("/skip", "cancel")
    ensures IsCommandNamed("/skip\n", "skip") && !IsCommandNamed("/skip\n", "cancel")
  {
    assert "/skip"[1..] == "skip";
    assert CommandWord("skip") == "skip";
    assert AsciiLower("skip") == "skip";
    assert "/skip\n"[1..] == "skip\n";
    assert CommandWord("skip\n") == "skip";
  }

  /** A command never reaches the title step, and a text that is not a
      command always does. */
  lemma TitleRouteIff(phase: Phase, text: string)
    ensures Route(phase, text) == TitleHandler <==> phase == TITLE && IsText(text) && !IsCommand(text)
  {
    if phase == TITLE && !(IsText(text) && !IsCommand(text)) {
      assert CommandRoute(text) != TitleHandler;
    }
  }

  /** Exactly the skip directive and the date pattern reach the date step. */
  lemma DateRouteIff(phase: Phase, text: string)
    ensures Route(phase, text) == DateHandler <==> phase == DATE && (MatchesDateRegex(text) || MatchesSkipRegex(text))
  {
  }

  /** `/cancel` is heard in both steps of the conversation and nowhere else. */
  lemma CancelRouteIff(phase: Phase, text: string)
    ensures Route(phase, text) == CancelHandler <==> phase != END && IsCommandNamed(text, "cancel")
  {
    if phase != END && IsCommandNamed(text, "cancel") {
      assert IsCommand(text);
      assert text[0] == '/';
      assert !DateText.IsDateShape(text);
      SkipIsNotCancel();
    }
  }

  /** `/start` opens a conversation only when none is running. */
  lemma StartRouteIff(phase: Phase, text: string)
    ensures Route(phase, text) == StartHandler <==> phase == END && IsCommandNamed(text, "start")
  {
  }

  /** `/days` and `/failed` still work in the middle of a conversation. */
  lemma CommandsReachedInEveryPhase(phase: Phase, text: string)
    requires IsCommandNamed(text, "days") || IsCommandNamed(text, "failed")
    ensures Route(phase, text) == CommandRoute(text)
    ensures Route(phase, text) == (if IsCommandNamed(text, "days") then DaysHandler else FailedHandler)
  {
    assert text[0] == '/';
    assert !IsCommandNamed(text, "start") && !IsCommandNamed(text, "cancel");
    assert !MatchesSkipRegex(text) by {
      if MatchesSkipRegex(text) { SkipIsNotCancel(); CommandWordOfSkip(text); }
    }
    assert !DateText.IsDateShape(text);
  }

  lemma CommandWordOfSkip(text: string)
    requires MatchesSkipRegex(text)
    ensures AsciiLower(CommandWord(text[1..])) == "skip"
  {
    if text == "/skip" {
      assert text[1..] == "skip";
    } else {
      assert text[1..] == "skip\n";
      assert CommandWord("skip\n") == "skip";
    }
    assert AsciiLower("skip") == "skip";
  }
}
