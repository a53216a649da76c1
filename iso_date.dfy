/** The calendar-date text of a field: written by `str(date)` as the ISO 8601
    extended calendar date `YYYY-MM-DD` (section 4.1.2.2 of ISO 8601:2004) and
    read back by `time.strptime(value, "%Y-%m-%d")`. */
module IsoDate {
  import opened Values
  import opened Text

  /** `str(date)` (`date.isoformat()`): `%04d-%02d-%02d`. */
  function Format(d: Date): (r: string)
    ensures |r| == 10
  {
    Pad(d.year, 4) + "-" + Pad(d.month, 2) + "-" + Pad(d.day, 2)
  }

  /** The `%m` directive, `(1[0-2]|0[1-9]|[1-9])`, tried in that order:
      the month and the number of characters it took. */
  function MatchMonth(s: string): (r: Option<(int, nat)>)
    ensures r.Some? ==> 1 <= r.value.1 <= |s|
  {
    if |s| >= 2 && s[0] == '1' && '0' <= s[1] <= '2' then Some((10 + DigitValue(s[1]), 2))
    else if |s| >= 2 && s[0] == '0' && '1' <= s[1] <= '9' then Some((DigitValue(s[1]), 2))
    else if |s| >= 1 && '1' <= s[0] <= '9' then Some((DigitValue(s[0]), 1))
    else None
  }

  /** The `%d` directive, `(3[01]|[12]\d|0[1-9]|[1-9]| [1-9])`, tried in that
      order: the day and the number of characters it took. */
  function MatchDay(s: string): (r: Option<(int, nat)>)
    ensures r.Some? ==> 1 <= r.value.1 <= |s|
  {
    if |s| >= 2 && s[0] == '3' && (s[1] == '0' || s[1] == '1') then Some((30 + DigitValue(s[1]), 2))
    else if |s| >= 2 && (s[0] == '1' || s[0] == '2') && IsDigit(s[1]) then
      Some((10 * DigitValue(s[0]) + DigitValue(s[1]), 2))
    else if |s| >= 2 && s[0] == '0' && '1' <= s[1] <= '9' then Some((DigitValue(s[1]), 2))
    else if |s| >= 1 && '1' <= s[0] <= '9' then Some((DigitValue(s[0]), 1))
    else if |s| >= 2 && s[0] == ' ' && '1' <= s[1] <= '9' then Some((DigitValue(s[1]), 2))
    else None
  }

  /** `time.strptime(s, "%Y-%m-%d")` followed by `datetime.date(...)`: `None`
      stands for the ValueError either raises (no match, text left over after
      the day, or a day the month does not have). */
  function Parse(s: string): Option<Date> {
    if |s| < 5 || !AllDigits(s[..4]) || s[4] != '-' then None
    else
      var year := DigitsValue(s[..4]);
      match MatchMonth(s[5..])
      case None => None
      case Some(m) =>
        var k := 5 + m.1;
        if k >= |s| || s[k] != '-' then None
        else
          match MatchDay(s[k + 1..])
          case None => None
          case Some(dd) =>
            if k + 1 + dd.1 != |s| then None
            else if ValidDate(year, m.0, dd.0) then Some(Triple(year, m.0, dd.0))
            else None
  }

  lemma TwoDigits(n: nat)
    requires n < 100
    ensures Pad(n, 2) == [DigitChar(n / 10), DigitChar(n % 10)]
  {
    assert Pad(n / 10, 1) == Pad(n / 100, 0) + [DigitChar((n / 10) % 10)];
  }

  lemma MonthText(month: int, rest: string)
    requires 1 <= month <= 12
    ensures MatchMonth(Pad(month, 2) + rest) == Some((month, 2))
  {
    TwoDigits(month);
  }

  lemma DayText(day: int)
    requires 1 <= day <= 31
    ensures MatchDay(Pad(day, 2)) == Some((day, 2))
  {
    TwoDigits(day);
  }

  /** Reading back the text `str(date)` writes gives the same date. */
  lemma RoundTrip(d: Date)
    ensures Parse(Format(d)) == Some(d)
  {
    var s := Format(d);
    var y, m, dd := Pad(d.year, 4), Pad(d.month, 2), Pad(d.day, 2);
    assert s[..4] == y;
    assert Pow10(4) == 10000;
    PadValue(d.year, 4);
    assert s[5..] == m + ("-" + dd);
    MonthText(d.month, "-" + dd);
    assert s[8..] == dd;
    DayText(d.day);
  }

  /** `strptime` also takes months and days without their leading zero. */
  lemma AcceptsUnpadded()
    ensures Parse("2009-5-7") == Some(Triple(2009, 5, 7))
  {
    var s := "2009-5-7";
    assert s[..4] == "2009";
    assert DigitsValue("2009") == 2009 by {
      assert "2009"[..3] == "200";
      assert "200"[..2] == "20";
      assert "20"[..1] == "2";
      assert "2"[..0] == "";
    }
    assert s[5..] == "5-7";
    assert s[7..] == "7";
  }
}
