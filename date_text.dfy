/** Reading a date typed as `DD/MM/YYYY`, as
    `datetime.datetime.strptime(text, "%d/%m/%Y").date()` does for text of
    that two-digit shape, and the formatting that reads back to the same
    text. */
module DateText {
  import opened Wrappers
  import opened Dates

  predicate IsDigit(c: char) {
    '0' <= c <= '9'
  }

  predicate AllDigits(s: string) {
    forall i :: 0 <= i < |s| ==> IsDigit(s[i])
  }

  function DigitValue(c: char): (v: nat)
    requires IsDigit(c)
    ensures v < 10
  {
    (c as int) - ('0' as int)
  }

  function DigitChar(v: nat): (c: char)
    requires v < 10
    ensures IsDigit(c) && DigitValue(c) == v
  {
    (('0' as int) + v) as char
  }

  lemma DigitCharOfValue(c: char)
    requires IsDigit(c)
    ensures DigitChar(DigitValue(c)) == c
  {
  }

  lemma DivModTen(x: nat, d: nat)
    requires d < 10
    ensures (10 * x + d) / 10 == x && (10 * x + d) % 10 == d
  {
  }

  function Pow10(n: nat): (p: nat)
    ensures p >= 1
  {
    if n == 0 then 1 else 10 * Pow10(n - 1)
  }

  /** The decimal value of a string of digits, most significant first. */
  function DigitsValue(s: string): (v: nat)
    requires AllDigits(s)
    ensures v < Pow10(|s|)
  {
    if s == [] then 0 else 10 * DigitsValue(s[..|s| - 1]) + DigitValue(s[|s| - 1])
  }

  /** `n` written with exactly `width` digits, zero-padded on the left. */
  function Pad(n: nat, width: nat): (s: string)
    requires n < Pow10(width)
    ensures |s| == width && AllDigits(s)
  {
    if width == 0 then "" else Pad(n / 10, width - 1) + [DigitChar(n % 10)]
  }

  /** The text the date route lets through, trailing newline aside:
      two digits, a slash, two digits, a slash, four digits. */
  predicate IsDateShape(s: string) {
    && |s| == 10
    && s[2] == '/' && s[5] == '/'
    && AllDigits(s[0..2]) && AllDigits(s[3..5]) && AllDigits(s[6..10])
  }

  /** The fields of a date-shaped text, read as day/month/year. */
  function Fields(s: string): Date
    requires IsDateShape(s)
  {
    Date(DigitsValue(s[6..10]), DigitsValue(s[3..5]), DigitsValue(s[0..2]))
  }

  /** strptime with "%d/%m/%Y": `Some` of the date for a date-shaped text
      naming a real calendar date, `None` (a ValueError) for anything else,
      including a text with data after the year. */
  function ParseDate(s: string): (r: Option<Date>)
    ensures r.Some? ==> ValidDate(r.value)
  {
    if IsDateShape(s) && ValidDate(Fields(s)) then Some(Fields(s)) else None
  }

  /** A valid date written as `DD/MM/YYYY`. */
  function FormatDate(d: Date): (s: string)
    requires ValidDate(d)
    ensures IsDateShape(s)
  {
    Pad(d.day, 2) + "/" + Pad(d.month, 2) + "/" + Pad(d.year, 4)
  }

  lemma {:induction false} DigitsValueOfPad(n: nat, width: nat)
    requires n < Pow10(width)
    ensures DigitsValue(Pad(n, width)) == n
  {
    if width > 0 {
      var s := Pad(n, width);
      assert s[..|s| - 1] == Pad(n / 10, width - 1);
      DigitsValueOfPad(n / 10, width - 1);
    }
  }

  lemma {:induction false} PadOfDigitsValue(s: string)
    requires AllDigits(s)
    ensures Pad(DigitsValue(s), |s|) == s
  {
    if s != [] {
      var init, last := s[..|s| - 1], s[|s| - 1];
      var v := DigitsValue(s);
      assert v == 10 * DigitsValue(init) + DigitValue(last);
      DivModTen(DigitsValue(init), DigitValue(last));
      assert Pad(v, |s|) == Pad(v / 10, |s| - 1) + [DigitChar(v % 10)];
      PadOfDigitsValue(init);
      DigitCharOfValue(last);
      assert s == init + [last];
    }
  }

  /** Formatting a valid date and reading it back gives the same date. */
  lemma ParseFormat(d: Date)
    requires ValidDate(d)
    ensures ParseDate(FormatDate(d)) == Some(d)
  {
    var s := FormatDate(d);
    assert s[0..2] == Pad(d.day, 2);
    assert s[3..5] == Pad(d.month, 2);
    assert s[6..10] == Pad(d.year, 4);
    DigitsValueOfPad(d.day, 2);
    DigitsValueOfPad(d.month, 2);
    DigitsValueOfPad(d.year, 4);
  }

  /** A text that parses is the formatting of the date it parses to: the
      parse loses nothing. */
  lemma FormatParse(s: string)
    requires ParseDate(s).Some?
    ensures FormatDate(ParseDate(s).value) == s
  {
    PadOfDigitsValue(s[0..2]);
    PadOfDigitsValue(s[3..5]);
    PadOfDigitsValue(s[6..10]);
    assert s == s[0..2] + "/" + s[3..5] + "/" + s[6..10];
  }

  /** A date-shaped text fails to parse exactly when it names no calendar
      date, such as the 31st of February. */
  lemma ParseFailsIffNoSuchDay(s: string)
    requires IsDateShape(s)
    ensures ParseDate(s).None? <==> !ValidDate(Fields(s))
  {
  }

  lemma TwoDigits(s: string)
    requires |s| == 2 && AllDigits(s)
    ensures DigitsValue(s) == 10 * DigitValue(s[0]) + DigitValue(s[1])
  {
    assert s[..1][..0] == [];
    assert DigitsValue(s[..1]) == DigitValue(s[0]);
  }

  lemma FourDigits(s: string)
    requires |s| == 4 && AllDigits(s)
    ensures DigitsValue(s) == 1000 * DigitValue(s[0]) + 100 * DigitValue(s[1]) + 10 * DigitValue(s[2]) + DigitValue(s[3])
  {
    var three := s[..3];
    TwoDigits(three[..2]);
    assert DigitsValue(three) == 10 * DigitsValue(three[..2]) + DigitValue(s[2]);
    assert DigitsValue(s) == 10 * DigitsValue(three) + DigitValue(s[3]);
  }

  /** The date shape and its fields, checked character by character. */
  lemma DateShapeByChars(s: string)
    requires |s| == 10 && s[2] == '/' && s[5] == '/'
    requires IsDigit(s[0]) && IsDigit(s[1]) && IsDigit(s[3]) && IsDigit(s[4])
    requires IsDigit(s[6]) && IsDigit(s[7]) && IsDigit(s[8]) && IsDigit(s[9])
    ensures IsDateShape(s)
    ensures Fields(s) == Date(
      1000 * DigitValue(s[6]) + 100 * DigitValue(s[7]) + 10 * DigitValue(s[8]) + DigitValue(s[9]),
      10 * DigitValue(s[3]) + DigitValue(s[4]),
      10 * DigitValue(s[0]) + DigitValue(s[1]))
  {
    assert IsDateShape(s);
    TwoDigits(s[0..2]);
    TwoDigits(s[3..5]);
    FourDigits(s[6..10]);
  }

  lemma ParseFirstOfMarch()
    ensures ParseDate("01/03/2024") == Some(Date(2024, 3, 1))
  {
    DateShapeByChars("01/03/2024");
  }

  /** The leap day exists in 2024 ... */
  lemma ParseLeapDay()
    ensures ParseDate("29/02/2024") == Some(Date(2024, 2, 29))
  {
    DateShapeByChars("29/02/2024");
  }

  /** ... and not in 2023. */
  lemma ParseNoLeapDay()
    ensures ParseDate("29/02/2023") == None
  {
    DateShapeByChars("29/02/2023");
  }

  /** The 31st of February has the right shape but names no day. */
  lemma ParseThirtyFirstOfFebruary()
    ensures IsDateShape("31/02/2024") && ParseDate("31/02/2024") == None
  {
    DateShapeByChars("31/02/2024");
  }

  /** Data after the year, even a line break the date route lets through,
      makes the parse fail, whatever date comes before it. */
  lemma ParseRejectsTrailingNewline(s: string)
    requires |s| > 10 && IsDateShape(s[..10])
    ensures ParseDate(s) == None
  {
  }
}
