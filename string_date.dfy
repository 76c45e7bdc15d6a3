/**
 * `StringDate`: a date that arrives in JSON as the string "DD.MM.YYYY".
 *
 * Decoding leaves the stored date alone on the JSON literal `null` and on any
 * input that is not quote-delimited, removes one quote from each end without
 * unescaping anything, and parses the rest with Go's `time.Parse` and the
 * layout "02.01.2006". The parse is modelled here by `ParseLayout`, which
 * follows the checks `time.Parse` makes for that layout, in the order it makes
 * them; the `time` package itself is not part of this model.
 */
module JsonStringDate {
  import opened Wrappers

  newtype byte = b: int | 0 <= b < 256

  const Quote: byte := 34
  const Dot: byte := 46
  const Zero: byte := 48

  /** The JSON literal `null`. */
  const Null: seq<byte> := [110, 117, 108, 108]

  /** A calendar date at midnight UTC, which is every time this layout yields. */
  datatype Date = Date(year: int, month: int, day: int)

  /** Go's zero `time.Time`: January 1 of year 1. */
  const ZeroTime: Date := Date(1, 1, 1)

  /** Leap years of the proleptic Gregorian calendar. */
  predicate IsLeap(year: int) {
    year % 4 == 0 && (year % 100 != 0 || year % 400 == 0)
  }

  /** The number of days in `month` of `year`. */
  function DaysIn(month: int, year: int): (n: int)
    requires 1 <= month <= 12
    ensures 28 <= n <= 31
  {
    if month == 2 then (if IsLeap(year) then 29 else 28)
    else if month == 4 || month == 6 || month == 9 || month == 11 then 30
    else 31
  }

  /** A date this layout can write: a four-digit year, a month of the year, a day of that month. */
  predicate ValidDate(d: Date) {
    0 <= d.year <= 9999 && 1 <= d.month <= 12 && 1 <= d.day <= DaysIn(d.month, d.year)
  }

  predicate IsDigit(b: byte) {
    Zero <= b <= Zero + 9
  }

  function DigitValue(b: byte): (n: nat)
    requires IsDigit(b)
    ensures n < 10
  {
    (b - Zero) as nat
  }

  function DigitByte(n: nat): (b: byte)
    requires n < 10
    ensures IsDigit(b) && DigitValue(b) == n
  {
    (n + 48) as byte
  }

  /** `n` in two digits, zero-padded. */
  function TwoDigits(n: nat): seq<byte>
    requires n < 100
  {
    [DigitByte(n / 10), DigitByte(n % 10)]
  }

  /** `n` in four digits, zero-padded. */
  function FourDigits(n: nat): seq<byte>
    requires n < 10000
  {
    TwoDigits(n / 100) + TwoDigits(n % 100)
  }

  /** The text of `d` in the layout "02.01.2006". */
  function Format(d: Date): (s: seq<byte>)
    requires 0 <= d.year <= 9999 && 0 <= d.month < 100 && 0 <= d.day < 100
    ensures |s| == 10 && s[2] == Dot && s[5] == Dot
  {
    TwoDigits(d.day) + [Dot] + TwoDigits(d.month) + [Dot] + FourDigits(d.year)
  }

  /** The reasons `time.Parse` gives for refusing a text. */
  datatype ParseError =
    | BadLayout        // a digit or a '.' missing where the layout wants one
    | MonthOutOfRange  // two digits of month outside 1..12
    | ExtraText        // text left over after the year
    | DayOutOfRange    // two digits of day outside the days of that month

  lemma TwoDigitsOf(a: nat, b: nat)
    requires a < 10 && b < 10
    ensures TwoDigits(10 * a + b) == [DigitByte(a), DigitByte(b)]
  {
  }

  lemma FourDigitsOf(a: nat, b: nat, c: nat, d: nat)
    requires a < 10 && b < 10 && c < 10 && d < 10
    ensures FourDigits(1000 * a + 100 * b + 10 * c + d) == [DigitByte(a), DigitByte(b), DigitByte(c), DigitByte(d)]
  {
    var hi, lo := 10 * a + b, 10 * c + d;
    assert 1000 * a + 100 * b + 10 * c + d == 100 * hi + lo;
    assert (100 * hi + lo) / 100 == hi && (100 * hi + lo) % 100 == lo;
    TwoDigitsOf(a, b);
    TwoDigitsOf(c, d);
  }

  lemma DigitByteOfValue(x: byte)
    requires IsDigit(x)
    ensures DigitByte(DigitValue(x)) == x
  {
  }

  /**
   * `time.Parse("02.01.2006", s)`: a two-digit day, '.', a two-digit month in
   * 1..12, '.', a four-digit year, nothing after it, and a day that exists in
   * that month. Whatever it accepts is a valid date that formats back to `s`.
   */
  function ParseLayout(s: seq<byte>): (r: Result<Date, ParseError>)
    ensures r.Success? ==> ValidDate(r.value) && Format(r.value) == s
  {
    if |s| < 2 || !IsDigit(s[0]) || !IsDigit(s[1]) then Failure(BadLayout)
    else if |s| < 3 || s[2] != Dot then Failure(BadLayout)
    else if |s| < 5 || !IsDigit(s[3]) || !IsDigit(s[4]) then Failure(BadLayout)
    else
      var day := 10 * DigitValue(s[0]) + DigitValue(s[1]);
      var month := 10 * DigitValue(s[3]) + DigitValue(s[4]);
      if month < 1 || 12 < month then Failure(MonthOutOfRange)
      else if |s| < 6 || s[5] != Dot then Failure(BadLayout)
      else if |s| < 10 || !IsDigit(s[6]) || !IsDigit(s[7]) || !IsDigit(s[8]) || !IsDigit(s[9]) then Failure(BadLayout)
      else
        var year := 1000 * DigitValue(s[6]) + 100 * DigitValue(s[7]) + 10 * DigitValue(s[8]) + DigitValue(s[9]);
        if |s| > 10 then Failure(ExtraText)
        else if day < 1 || day > DaysIn(month, year) then Failure(DayOutOfRange)
        else
          TwoDigitsOf(DigitValue(s[0]), DigitValue(s[1]));
          TwoDigitsOf(DigitValue(s[3]), DigitValue(s[4]));
          FourDigitsOf(DigitValue(s[6]), DigitValue(s[7]), DigitValue(s[8]), DigitValue(s[9]));
          DigitByteOfValue(s[0]); DigitByteOfValue(s[1]); DigitByteOfValue(s[3]); DigitByteOfValue(s[4]);
          DigitByteOfValue(s[6]); DigitByteOfValue(s[7]); DigitByteOfValue(s[8]); DigitByteOfValue(s[9]);
          assert s == s[0..2] + [Dot] + s[3..5] + [Dot] + s[6..10];
          Success(Date(year, month, day))
  }

  /** The two digits of `n` read back as `n`. */
  lemma TwoDigitsValue(n: nat)
    requires n < 100
    ensures var t := TwoDigits(n);
      IsDigit(t[0]) && IsDigit(t[1]) && 10 * DigitValue(t[0]) + DigitValue(t[1]) == n
  {
  }

  /** The four digits of `n` read back as `n`. */
  lemma FourDigitsValue(n: nat)
    requires n < 10000
    ensures var t := FourDigits(n);
      && IsDigit(t[0]) && IsDigit(t[1]) && IsDigit(t[2]) && IsDigit(t[3])
      && 1000 * DigitValue(t[0]) + 100 * DigitValue(t[1]) + 10 * DigitValue(t[2]) + DigitValue(t[3]) == n
  {
    TwoDigitsValue(n / 100);
    TwoDigitsValue(n % 100);
  }

  /** Every valid date, written in the layout, parses back to itself. */
  lemma FormatParses(d: Date)
    requires ValidDate(d)
    ensures ParseLayout(Format(d)) == Success(d)
  {
    var s := Format(d);
    var dd, mm, yy := TwoDigits(d.day), TwoDigits(d.month), FourDigits(d.year);
    assert s == dd + [Dot] + mm + [Dot] + yy;
    assert s[0] == dd[0] && s[1] == dd[1] && s[3] == mm[0] && s[4] == mm[1];
    assert s[6] == yy[0] && s[7] == yy[1] && s[8] == yy[2] && s[9] == yy[3];
    TwoDigitsValue(d.day);
    TwoDigitsValue(d.month);
    FourDigitsValue(d.year);
  }

  /** The layout accepts exactly the texts of valid dates. */
  lemma ParseLayoutAcceptsExactlyFormattedDates(s: seq<byte>)
    ensures ParseLayout(s).Success? <==> exists d :: ValidDate(d) && Format(d) == s
  {
    if d :| ValidDate(d) && Format(d) == s {
      FormatParses(d);
    }
  }

  /** `s` as bytes, for texts of single-byte characters. */
  function Ascii(s: string): (b: seq<byte>)
    requires forall i :: 0 <= i < |s| ==> s[i] as int < 256
    ensures |b| == |s|
  {
    seq(|s|, i requires 0 <= i < |s| => s[i] as int as byte)
  }

  /** "05.03.1990" is March 5, 1990. */
  lemma DottedDateParses()
    ensures ParseLayout(Ascii("05.03.1990")) == Success(Date(1990, 3, 5))
  {
    FormatParses(Date(1990, 3, 5));
    assert Format(Date(1990, 3, 5)) == Ascii("05.03.1990");
  }

  /** An ISO 8601 date and a date with a one-digit day do not fit the layout. */
  lemma OtherLayoutsRejected()
    ensures ParseLayout(Ascii("1990-03-05")) == Failure(BadLayout)
    ensures ParseLayout(Ascii("5.03.1990")) == Failure(BadLayout)
  {
  }

  /** Month 13 is out of range. */
  lemma MonthThirteenRejected()
    ensures ParseLayout(Ascii("05.13.1990")) == Failure(MonthOutOfRange)
  {
  }

  /** February 29 exists in 2000 but not in 1900. */
  lemma LeapDayFollowsGregorianRule()
    ensures ParseLayout(Ascii("29.02.1900")) == Failure(DayOutOfRange)
    ensures ParseLayout(Ascii("29.02.2000")) == Success(Date(2000, 2, 29))
  {
  }

  /** Nothing may follow the year. */
  lemma TrailingTextRejected()
    ensures ParseLayout(Ascii("05.03.1990Z")) == Failure(ExtraText)
  {
  }

  /** Input that is quote-delimited: at least two bytes, a quote first and last. */
  predicate IsJsonString(data: seq<byte>) {
    |data| >= 2 && data[0] == Quote && data[|data| - 1] == Quote
  }

  /** Why decoding failed. */
  datatype DecodeError =
    | NotAJsonString            // "Time.UnmarshalJSON: input is not a JSON string"
    | Parse(reason: ParseError) // the error of `time.Parse`

  /** A `time.Time` that decodes itself from "DD.MM.YYYY". */
  class StringDate {
    var time: Date

    /** The zero value. */
    constructor ()
      ensures time == ZeroTime
    {
      time := ZeroTime;
    }

    /**
     * Decodes `data` into this date: `null` and non-strings leave it alone, a
     * text the layout refuses overwrites it with the zero time.
     */
    method UnmarshalJSON(data: seq<byte>) returns (err: Option<DecodeError>)
      modifies this
      ensures data == Null ==> err == None && time == old(time)
      ensures data != Null && !IsJsonString(data) ==> err == Some(NotAJsonString) && time == old(time)
      ensures data != Null && IsJsonString(data) ==>
        match ParseLayout(data[1..|data| - 1])
        case Success(d) => err == None && time == d
        case Failure(e) => err == Some(Parse(e)) && time == ZeroTime
    {
      if data == Null {
        return None;
      }
      if |data| < 2 || data[0] != Quote || data[|data| - 1] != Quote {
        return Some(NotAJsonString);
      }
      var text := data[1..|data| - 1];
      match ParseLayout(text) {
        case Success(d) =>
          time := d;
          err := None;
        case Failure(e) =>
          time := ZeroTime;
          err := Some(Parse(e));
      }
    }
  }

  /** A quoted text of a valid date decodes to that date. */
  lemma QuotedDateDecodes(d: Date)
    requires ValidDate(d)
    ensures var data := [Quote] + Format(d) + [Quote];
      data != Null && IsJsonString(data) && ParseLayout(data[1..|data| - 1]) == Success(d)
  {
    var data := [Quote] + Format(d) + [Quote];
    assert data[1..|data| - 1] == Format(d);
    FormatParses(d);
  }
}
