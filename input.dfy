/** The two free-text validators of bot.py: a "lat, lon" pair (manual
    coordinates and plain text outside any dialog) and a notification
    interval in hours. */
module Input {
  import opened Wrappers
  import opened Text
  import opened Coordinates

  /** How coordinate text is answered. */
  datatype CoordInput =
    | BadFormat                  // not exactly two fields
    | NotNumbers                 // a field `float` refuses
    | OutOfRange                 // outside [-90, 90] x [-180, 180]
    | Point(lat: real, lon: real)

  /** `text.replace(',', ' ').split()`, two numbers, then the range check. */
  function ParseCoordinates(text: string): (r: CoordInput)
    ensures r.Point? ==> -90.0 <= r.lat <= 90.0 && -180.0 <= r.lon <= 180.0
    ensures r.BadFormat? <==> |Words(ReplaceChar(text, ',', ' '))| != 2
  {
    var parts := Words(ReplaceChar(text, ',', ' '));
    if |parts| != 2 then BadFormat
    else match (ParseDecimal(parts[0]), ParseDecimal(parts[1]))
      case (Some(lat), Some(lon)) =>
        if -90.0 <= lat <= 90.0 && -180.0 <= lon <= 180.0 then Point(lat, lon) else OutOfRange
      case _ => NotNumbers
  }

  /** A comma and a blank separate the two numbers alike. */
  lemma CommaIsBlank(a: string, b: string)
    ensures ParseCoordinates(a + "," + b) == ParseCoordinates(a + " " + b)
  {
    assert ReplaceChar(a + "," + b, ',', ' ') == ReplaceChar(a + " " + b, ',', ' ');
  }

  lemma NoBlankInFormatted(n: int)
    ensures IsWord(FormatHundredths(n)) && ',' !in FormatHundredths(n)
    ensures ReplaceChar(FormatHundredths(n), ',', ' ') == FormatHundredths(n)
  {
    FormatHundredthsShape(n);
  }

  /** "a, b" splits into the fields `a` and `b`. */
  lemma {:induction false} TwoFields(a: string, b: string)
    requires IsWord(a) && IsWord(b) && ',' !in a && ',' !in b
    ensures Words(ReplaceChar(a + ", " + b, ',', ' ')) == [a, b]
  {
    var text := a + ", " + b;
    var replaced := ReplaceChar(text, ',', ' ');
    assert replaced == a + "  " + b by {
      forall i | 0 <= i < |text| ensures replaced[i] == (a + "  " + b)[i] {
        if i < |a| {
          assert text[i] == a[i];
        } else if i >= |a| + 2 {
          assert text[i] == b[i - |a| - 2];
        }
      }
    }
    WordsCons(a, "  ", b);
    WordsSingle(b);
  }

  /** A point written as the bot writes coordinates, "55.75, 37.62", is
      read back as exactly that point when it is in range, and refused as
      out of range otherwise. */
  lemma FormattedPointAccepted(m: int, n: int)
    ensures var r := ParseCoordinates(FormatHundredths(m) + ", " + FormatHundredths(n));
      if -9000 <= m <= 9000 && -18000 <= n <= 18000 then r == Point(m as real / 100.0, n as real / 100.0)
      else r == OutOfRange
  {
    FormattedFields(m, n);
    FieldsRead(FormatHundredths(m), FormatHundredths(n), m, n);
  }

  /** Both formatted numbers are single fields that read back as their values. */
  lemma FormattedFields(m: int, n: int)
    ensures var a, b := FormatHundredths(m), FormatHundredths(n);
      && IsWord(a) && IsWord(b) && ',' !in a && ',' !in b
      && ParseDecimal(a) == Some(m as real / 100.0) && ParseDecimal(b) == Some(n as real / 100.0)
  {
    NoBlankInFormatted(m);
    NoBlankInFormatted(n);
    FormatHundredthsParses(m);
    FormatHundredthsParses(n);
  }

  /** Two fields joined by ", " that read as `m` and `n` hundredths are
      read as that point, subject only to the range check. */
  lemma FieldsRead(a: string, b: string, m: int, n: int)
    requires IsWord(a) && IsWord(b) && ',' !in a && ',' !in b
    requires ParseDecimal(a) == Some(m as real / 100.0) && ParseDecimal(b) == Some(n as real / 100.0)
    ensures var r := ParseCoordinates(a + ", " + b);
      if -9000 <= m <= 9000 && -18000 <= n <= 18000 then r == Point(m as real / 100.0, n as real / 100.0)
      else r == OutOfRange
  {
    TwoFields(a, b);
  }

  /** How interval text is answered. */
  datatype IntervalInput = Rejected | Hours(hours: real)

  /** `float(text.strip().replace(',', '.'))`, kept only when positive. */
  function ParseInterval(text: string): (r: IntervalInput)
    ensures r.Hours? ==> r.hours > 0.0
  {
    match ParseDecimal(ReplaceChar(Strip(text), ',', '.'))
    case Some(v) => if v > 0.0 then Hours(v) else Rejected
    case None => Rejected
  }

  /** An interval typed with a decimal comma, as a phone keyboard offers,
      reads as the same number written with a point; zero and negative
      values are refused. */
  lemma {:induction false} IntervalWithComma(n: int)
    ensures var typed := ReplaceChar(FormatHundredths(n), '.', ',');
      ParseInterval(typed) == (if n > 0 then Hours(n as real / 100.0) else Rejected)
  {
    var s := FormatHundredths(n);
    FormatHundredthsShape(n);
    var typed := ReplaceChar(s, '.', ',');
    assert typed[0] == s[0] && typed[|typed| - 1] == s[|s| - 1];
    StripKeeps(typed);
    assert ReplaceChar(typed, ',', '.') == s;
    FormatHundredthsParses(n);
  }
}
