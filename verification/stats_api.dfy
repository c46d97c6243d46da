/**
 * The REST layer around the report engine: validation of the optional
 * date-range arguments, the count arguments and their defaults, the
 * `{success, data}` envelope every report handler answers with, and the
 * health check's verdict.  `date_parse` and `sanitize_text_field` are
 * parameters; `IsoDateParse` is a reference reading of `YYYY-MM-DD` text.
 */
module StatsApi {

  import opened Wrappers
  import opened Text

  // ---------------------------------------------------------------
  // Dates
  // ---------------------------------------------------------------

  /** What `date_parse` reports: its error count and the fields it found (0 for a field it did not find). */
  datatype ParsedDate = ParsedDate(errorCount: nat, year: int, month: int, day: int)

  predicate IsLeapYear(y: int) {
    y % 4 == 0 && (y % 100 != 0 || y % 400 == 0)
  }

  function DaysInMonth(year: int, month: int): (n: int)
    requires 1 <= month <= 12
    ensures 28 <= n <= 31
    ensures n == 29 <==> month == 2 && IsLeapYear(year)
    ensures n == 31 <==> month in {1, 3, 5, 7, 8, 10, 12}
  {
    if month == 2 then (if IsLeapYear(year) then 29 else 28)
    else if month in {4, 6, 9, 11} then 30
    else 31
  }

  /** PHP `checkdate(month, day, year)`: a Gregorian calendar date with a year from 1 to 32767. */
  predicate CheckDate(month: int, day: int, year: int)
    ensures CheckDate(month, day, year) ==> 1 <= month <= 12 && 1 <= day <= 31 && 1 <= year <= 32767
  {
    1 <= month <= 12 && 1 <= day && day <= DaysInMonth(year, month) && 1 <= year <= 32767
  }

  /** The twenty-ninth of February exists only in leap years, and no thirty-day month has a thirty-first. */
  lemma CalendarRules(month: int, year: int)
    ensures CheckDate(2, 29, year) <==> IsLeapYear(year) && 1 <= year <= 32767
    ensures month in {4, 6, 9, 11} ==> !CheckDate(month, 31, year)
  {
  }

  /** `validate_date`: an empty date passes; any other must parse without errors into a real calendar date. */
  function ValidateDate(date: Option<string>, dateParse: string -> ParsedDate): (ok: bool)
    ensures EmptyString(date) ==> ok
    ensures !EmptyString(date) ==>
              (ok <==> dateParse(date.value).errorCount == 0
                       && CheckDate(dateParse(date.value).month, dateParse(date.value).day, dateParse(date.value).year))
  {
    if EmptyString(date) then true
    else
      var p := dateParse(date.value);
      p.errorCount == 0 && CheckDate(p.month, p.day, p.year)
  }

  /** A reference `date_parse` for text of the exact form `YYYY-MM-DD`; anything else counts one error. */
  function IsoDateParse(s: string): ParsedDate {
    if |s| == 10 && s[4] == '-' && s[7] == '-'
       && AllDigits(s[..4]) && AllDigits(s[5..7]) && AllDigits(s[8..])
    then ParsedDate(0, DigitsValue(s[..4]), DigitsValue(s[5..7]), DigitsValue(s[8..]))
    else ParsedDate(1, 0, 0, 0)
  }

  /** The value of two decimal digits. */
  lemma DigitsOfTwo(t: string)
    requires |t| == 2 && AllDigits(t)
    ensures DigitsValue(t) == DigitValue(t[0]) * 10 + DigitValue(t[1])
  {
    assert t[..1][..0] == [];
    assert DigitsValue(t[..1]) == DigitValue(t[0]);
  }

  /** The value of four decimal digits. */
  lemma DigitsOfFour(t: string)
    requires |t| == 4 && AllDigits(t)
    ensures DigitsValue(t) == DigitValue(t[0]) * 1000 + DigitValue(t[1]) * 100 + DigitValue(t[2]) * 10 + DigitValue(t[3])
  {
    var u := t[..3];
    DigitsOfTwo(u[..2]);
    assert DigitsValue(u) == DigitsValue(u[..2]) * 10 + DigitValue(t[2]);
  }

  /** The fields of a `YYYY-MM-DD` text, digit by digit. */
  lemma IsoParseFields(s: string)
    requires |s| == 10 && s[4] == '-' && s[7] == '-'
    requires AllDigits(s[..4]) && AllDigits(s[5..7]) && AllDigits(s[8..])
    ensures IsoDateParse(s) == ParsedDate(0,
              DigitValue(s[0]) * 1000 + DigitValue(s[1]) * 100 + DigitValue(s[2]) * 10 + DigitValue(s[3]),
              DigitValue(s[5]) * 10 + DigitValue(s[6]),
              DigitValue(s[8]) * 10 + DigitValue(s[9]))
  {
    DigitsOfFour(s[..4]);
    DigitsOfTwo(s[5..7]);
    DigitsOfTwo(s[8..]);
  }

  /** `date_parse` of a `YYYY-MM-DD` literal, by the reference reading. */
  lemma IsoLiteral(s: string, y: int, m: int, d: int)
    requires |s| == 10 && s[4] == '-' && s[7] == '-'
    requires forall i | i in {0, 1, 2, 3, 5, 6, 8, 9} :: IsDigit(s[i])
    requires y == DigitValue(s[0]) * 1000 + DigitValue(s[1]) * 100 + DigitValue(s[2]) * 10 + DigitValue(s[3])
    requires m == DigitValue(s[5]) * 10 + DigitValue(s[6]) && d == DigitValue(s[8]) * 10 + DigitValue(s[9])
    ensures IsoDateParse(s) == ParsedDate(0, y, m, d)
  {
    assert AllDigits(s[..4]) by {
      forall i | 0 <= i < 4 ensures IsDigit(s[..4][i]) { assert s[..4][i] == s[i]; }
    }
    assert AllDigits(s[5..7]) by {
      forall i | 0 <= i < 2 ensures IsDigit(s[5..7][i]) { assert s[5..7][i] == s[5 + i]; }
    }
    assert AllDigits(s[8..]) by {
      forall i | 0 <= i < 2 ensures IsDigit(s[8..][i]) { assert s[8..][i] == s[8 + i]; }
    }
    IsoParseFields(s);
  }

  /** In a leap year the twenty-ninth of February is a date and the thirtieth is not. */
  lemma LeapYearExamples()
    ensures ValidateDate(Some("2024-02-29"), IsoDateParse)
    ensures !ValidateDate(Some("2024-02-30"), IsoDateParse)
    ensures ValidateDate(Some("2000-02-29"), IsoDateParse)
  {
    IsoLiteral("2024-02-29", 2024, 2, 29);
    IsoLiteral("2024-02-30", 2024, 2, 30);
    IsoLiteral("2000-02-29", 2000, 2, 29);
  }

  /** Outside a leap year, a century year included, there is no twenty-ninth of February. */
  lemma CommonYearExamples()
    ensures !ValidateDate(Some("2023-02-29"), IsoDateParse)
    ensures !ValidateDate(Some("1900-02-29"), IsoDateParse)
  {
    IsoLiteral("2023-02-29", 2023, 2, 29);
    IsoLiteral("1900-02-29", 1900, 2, 29);
  }

  /** The empty string and `"0"` are empty dates and pass, whatever the parser would say. */
  lemma EmptyDateExamples(dateParse: string -> ParsedDate)
    ensures ValidateDate(Some(""), dateParse) && ValidateDate(Some("0"), dateParse) && ValidateDate(None, dateParse)
  {
  }

  /** The arguments of a date-range endpoint: each date optional, defaulting to null. */
  datatype DateArgs = DateArgs(startDate: Option<string>, endDate: Option<string>)

  /** A request rejected by argument validation, naming the arguments that failed. */
  datatype InvalidParams = InvalidParams(names: seq<string>)

  function Sanitized(date: Option<string>, sanitizeText: string -> string): Option<string> {
    if date.Some? then Some(sanitizeText(date.value)) else None
  }

  /**
   * `get_date_range_args` applied to a request: both dates pass the same
   * validator, each raw value as sent, and reach the handler sanitised.
   */
  function DateRangeArgs(start: Option<string>, end: Option<string>,
                         dateParse: string -> ParsedDate, sanitizeText: string -> string): (r: Result<DateArgs, InvalidParams>)
    ensures r.Ok? <==> ValidateDate(start, dateParse) && ValidateDate(end, dateParse)
    ensures r.Ok? ==> r.value == DateArgs(Sanitized(start, sanitizeText), Sanitized(end, sanitizeText))
    ensures r.Err? ==> ("start_date" in r.error.names <==> !ValidateDate(start, dateParse))
    ensures r.Err? ==> ("end_date" in r.error.names <==> !ValidateDate(end, dateParse))
  {
    var bad := (if ValidateDate(start, dateParse) then [] else ["start_date"])
               + (if ValidateDate(end, dateParse) then [] else ["end_date"]);
    if bad == [] then Ok(DateArgs(Sanitized(start, sanitizeText), Sanitized(end, sanitizeText)))
    else Err(InvalidParams(bad))
  }

  /** A request without dates is always accepted and asks for the whole history. */
  lemma NoDatesAccepted(dateParse: string -> ParsedDate, sanitizeText: string -> string)
    ensures DateRangeArgs(None, None, dateParse, sanitizeText) == Ok(DateArgs(None, None))
  {
  }

  // ---------------------------------------------------------------
  // Count arguments
  // ---------------------------------------------------------------

  /** PHP `absint`: the absolute value of the integer. */
  function Absint(x: int): (n: nat)
    ensures n as int == x || n as int == -x
    ensures x >= 0 ==> n == x
  {
    if x < 0 then -x else x
  }

  /** The look-ahead of the upcoming-renewals endpoint: 30 unless given. */
  function DaysParam(days: Option<int>): (n: nat)
    ensures days.None? ==> n == 30
    ensures days.Some? ==> n == Absint(days.value)
  {
    Absint(days.GetOr(30))
  }

  /** The row limit of the top-licenses endpoint: 20 unless given. */
  function LimitParam(limit: Option<int>): (n: nat)
    ensures limit.None? ==> n == 20
    ensures limit.Some? ==> n == Absint(limit.value)
  {
    Absint(limit.GetOr(20))
  }

  /** A negative count asks for the same report, under the same key, as its absolute value. */
  lemma NegativeCountMirrors(x: int)
    ensures DaysParam(Some(-x)) == DaysParam(Some(x))
    ensures LimitParam(Some(-x)) == LimitParam(Some(x))
  {
  }

  // ---------------------------------------------------------------
  // Responses
  // ---------------------------------------------------------------

  /** The body every report handler answers with. */
  datatype Envelope<T> = Envelope(success: bool, data: T)

  /** A report handler's answer: success and the query result unchanged. */
  function Respond<T>(data: T): (r: Envelope<T>)
    ensures r.success && r.data == data
  {
    Envelope(true, data)
  }

  const RequiredTables: seq<string> := ["edd_customers", "edd_orders", "edd_subscriptions"]

  /** The health endpoint's answer. */
  datatype Health = Health(success: bool, database: string, eddActive: bool, tablesExist: seq<bool>)

  /** PHP truthiness of `$wpdb->query('SELECT 1')`: a non-zero row count; `None` is `false`. */
  predicate ProbeOk(probe: Option<int>) {
    probe.Some? && probe.value != 0
  }

  /** `SHOW TABLES LIKE` answers with exactly the table's prefixed name. */
  predicate TableExists(prefix: string, table: string, showTables: string -> Option<string>) {
    showTables(prefix + table) == Some(prefix + table)
  }

  /** `health_check`. */
  function HealthCheck(probe: Option<int>, eddActive: bool, prefix: string,
                       showTables: string -> Option<string>): (h: Health)
    ensures |h.tablesExist| == |RequiredTables|
    ensures forall i | 0 <= i < |RequiredTables| :: h.tablesExist[i] == TableExists(prefix, RequiredTables[i], showTables)
    ensures h.success <==> ProbeOk(probe) && eddActive
                           && forall i | 0 <= i < |RequiredTables| :: TableExists(prefix, RequiredTables[i], showTables)
    ensures h.database == "connected" <==> ProbeOk(probe)
    ensures h.database in {"connected", "disconnected"}
    ensures h.eddActive == eddActive
  {
    var tables := seq(|RequiredTables|, i requires 0 <= i < |RequiredTables| => TableExists(prefix, RequiredTables[i], showTables));
    Health(ProbeOk(probe) && eddActive && false !in tables,
           if ProbeOk(probe) then "connected" else "disconnected",
           eddActive, tables)
  }
}
