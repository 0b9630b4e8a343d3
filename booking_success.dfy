/**
 * The confirmation page of the demo wizard: the chosen date shown as
 * day/month/year, and the WhatsApp link that sends the booking to the salon.
 */
module BookingSuccess {
  import opened Text
  import ClientBooking

  /** The `i`-th piece of a destructuring, `undefined` when the piece is missing. */
  function Piece(parts: seq<string>, i: nat): string
  {
    if i < |parts| then parts[i] else "undefined"
  }

  /**
   * `formatDate`: the text split on `-` into year, month and day (missing
   * pieces printed as `undefined`, extra pieces dropped), shown day first
   * and joined with `/`.
   */
  function FormatDate(date: string): (shown: string)
    ensures var year := Split(date, '-')[0];
      '-' !in year && |year| <= |date| && date[..|year|] == year
      && |year| < |shown| && shown[|shown| - |year| - 1..] == "/" + year
  {
    var parts := Split(date, '-');
    var year, month, day := Piece(parts, 0), Piece(parts, 1), Piece(parts, 2);
    JoinSplit(date, '-');
    assert date == parts[0] + Join(parts, '-')[|parts[0]|..];
    var shown := day + "/" + month + "/" + year;
    assert shown == (day + "/" + month) + ("/" + year);
    shown
  }

  lemma DigitsHaveNo(s: string, c: char)
    requires AllDigits(s) && !IsDigit(c)
    ensures c !in s
  {
    assert forall i :: 0 <= i < |s| ==> s[i] != c;
  }

  /**
   * A well-formed `YYYY-MM-DD` date comes out as `DD/MM/YYYY`: ten
   * characters with the slashes at positions 2 and 5.
   */
  lemma FormatWellFormed(year: string, month: string, day: string)
    requires |year| == 4 && |month| == 2 && |day| == 2
    requires AllDigits(year) && AllDigits(month) && AllDigits(day)
    ensures var r := FormatDate(year + "-" + month + "-" + day);
      r == day + "/" + month + "/" + year &&
      |r| == 10 && r[2] == '/' && r[5] == '/'
  {
    DigitsHaveNo(year, '-');
    DigitsHaveNo(month, '-');
    DigitsHaveNo(day, '-');
    JoinThree(year, month, day, '-');
    SplitJoin([year, month, day], '-');
    JoinThree(day, month, year, '/');
  }

  lemma FormatExample()
    ensures FormatDate("2024-12-03") == "03/12/2024"
  {
    var y, m, d := "2024", "12", "03";
    assert AllDigits(y) && AllDigits(m) && AllDigits(d);
    assert "2024-12-03" == y + "-" + m + "-" + d;
    FormatWellFormed(y, m, d);
    assert d + "/" + m + "/" + y == "03/12/2024";
  }

  /** A text without dashes is taken for the year alone. */
  lemma FormatWithoutDashes(date: string)
    requires '-' !in date
    ensures FormatDate(date) == "undefined/undefined/" + date
  {
    SplitNone(date, '-');
    JoinThree("undefined", "undefined", date, '/');
  }

  /**
   * Whenever the date has exactly three dash-separated pieces and no slash,
   * splitting the shown text on `/` and reading it backwards gives the
   * date again.
   */
  lemma FormatRoundTrip(date: string)
    requires |Split(date, '-')| == 3 && '/' !in date
    ensures var back := Split(FormatDate(date), '/');
      |back| == 3 && Join([back[2], back[1], back[0]], '-') == date
  {
    var parts := Split(date, '-');
    JoinSplit(date, '-');
    assert parts == [parts[0], parts[1], parts[2]];
    JoinThree(parts[0], parts[1], parts[2], '-');
    assert '/' !in parts[0] && '/' !in parts[1] && '/' !in parts[2];
    JoinThree(parts[2], parts[1], parts[0], '/');
    assert FormatDate(date) == Join([parts[2], parts[1], parts[0]], '/');
    SplitJoin([parts[2], parts[1], parts[0]], '/');
  }

  /** The link `handleWhatsApp` opens: `55` put in front of the stored number, whatever it holds. */
  function WhatsAppUrl(whatsapp: string, message: string): (url: string)
    ensures StartsWith(url, "https://wa.me/55")
  {
    "https://wa.me/55" + whatsapp + "?text=" + message
  }

  /**
   * Unlike the public booking page, which adds the country code only when
   * the digits lack it, this link adds it again to a number stored with it.
   */
  lemma CountryCodeDoubled(number: string, message: string)
    requires AllDigits(number) && StartsWith(number, "55")
    ensures ClientBooking.WithCountryCode(number) == number
    ensures StartsWith(WhatsAppUrl(number, message), "https://wa.me/5555")
  {
    assert DigitsOnly(number) == number;
    var url := WhatsAppUrl(number, message);
    assert url[..18] == "https://wa.me/55" + number[..2];
  }
}
