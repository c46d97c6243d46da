/**
 * The dashboard's HTTP client: the configuration it falls back to, the
 * query string `apiRequest` builds (null and undefined parameters are
 * skipped), the way it unwraps the `{success, data}` envelope, the
 * `start_date`/`end_date` pair `formatDateRange` produces, and the
 * currency formatting.  `fetch` and `Intl.NumberFormat` are parameters.
 */
module ApiClient {

  import opened Wrappers
  import opened Text
  import StatsApi

  // ---------------------------------------------------------------
  // Configuration
  // ---------------------------------------------------------------

  /** The fields of `window.vgpEddStats` the client reads. */
  datatype ClientConfig = ClientConfig(apiUrl: string, nonce: string, currencyCode: string)

  /** The configuration used when WordPress has not localized one. */
  const FallbackConfig := ClientConfig("/wp-json/vgp-edd-stats/v1", "", "USD")

  /** `getConfig`: the localized configuration when there is one. */
  function GetConfig(localized: Option<ClientConfig>): (c: ClientConfig)
    ensures localized.Some? ==> c == localized.value
    ensures localized.None? ==> c.apiUrl == "/wp-json/vgp-edd-stats/v1" && c.currencyCode == "USD" && c.nonce == ""
  {
    localized.GetOr(FallbackConfig)
  }

  // ---------------------------------------------------------------
  // Requests
  // ---------------------------------------------------------------

  /** A parameter value as JavaScript holds it; `Given` carries its text form. */
  datatype JsParam = Undefined | Null | Given(text: string)

  /** The pairs appended to the query string, in the parameter object's key order. */
  function PresentParams(params: seq<(string, JsParam)>): (r: seq<(string, string)>)
    ensures |r| <= |params|
    decreases |params|
  {
    if params == [] then []
    else
      var init := PresentParams(params[..|params| - 1]);
      var last := params[|params| - 1];
      if last.1.Given? then init + [(last.0, last.1.text)] else init
  }

  /** Exactly the given parameters reach the query string: no null or undefined one, and every other one. */
  lemma {:induction false} PresentParamsExact(params: seq<(string, JsParam)>)
    ensures forall p | p in PresentParams(params) ::
              exists i | 0 <= i < |params| :: params[i].1.Given? && p == (params[i].0, params[i].1.text)
    ensures forall i | 0 <= i < |params| && params[i].1.Given? :: (params[i].0, params[i].1.text) in PresentParams(params)
    decreases |params|
  {
    if params != [] {
      var init := params[..|params| - 1];
      PresentParamsExact(init);
      forall p | p in PresentParams(params)
        ensures exists i | 0 <= i < |params| :: params[i].1.Given? && p == (params[i].0, params[i].1.text)
      {
        if p in PresentParams(init) {
          var i :| 0 <= i < |init| && init[i].1.Given? && p == (init[i].0, init[i].1.text);
          assert params[i] == init[i];
        } else {
          assert params[|params| - 1].1.Given? && p == (params[|params| - 1].0, params[|params| - 1].1.text);
        }
      }
      forall i | 0 <= i < |params| && params[i].1.Given?
        ensures (params[i].0, params[i].1.text) in PresentParams(params)
      {
        if i < |init| {
          assert init[i] == params[i];
        }
      }
    }
  }

  /** Parameters without a null or undefined value are all appended, in order. */
  lemma {:induction false} AllGivenKept(params: seq<(string, JsParam)>)
    requires forall i | 0 <= i < |params| :: params[i].1.Given?
    ensures |PresentParams(params)| == |params|
    ensures forall i | 0 <= i < |params| :: PresentParams(params)[i] == (params[i].0, params[i].1.text)
    decreases |params|
  {
    if params != [] {
      AllGivenKept(params[..|params| - 1]);
    }
  }

  /** What `fetch` is asked for: the endpoint's URL, its query pairs and the REST nonce header. */
  datatype Request = Request(url: string, query: seq<(string, string)>, nonce: string)

  /** The JSON body of a response: `message` is read only on failure. */
  datatype Body<T> = Body(success: bool, message: Option<string>, data: T)

  /** An HTTP response: its `ok` flag, its status text and its decoded body. */
  datatype Response<T> = Response(ok: bool, statusText: string, body: Body<T>)

  /** The `Error` a failed request throws. */
  datatype ApiError = ApiError(message: string)

  /** The error message when the body carries none (JavaScript `||` treats `""` as none). */
  function FailureMessage(message: Option<string>): (m: string)
    ensures m != ""
    ensures message.Some? && message.value != "" ==> m == message.value
  {
    if message.Some? && message.value != "" then message.value else "API request failed"
  }

  /** The outcome of a response: `data.data` when both the status and the envelope report success. */
  function Unwrap<T>(resp: Response<T>): (r: Result<T, ApiError>)
    ensures r.Ok? <==> resp.ok && resp.body.success
    ensures r.Ok? ==> r.value == resp.body.data
    ensures !resp.ok ==> r.error.message == "API request failed: " + resp.statusText
    ensures resp.ok && !resp.body.success ==> r.error.message == FailureMessage(resp.body.message)
  {
    if !resp.ok then Err(ApiError("API request failed: " + resp.statusText))
    else if !resp.body.success then Err(ApiError(FailureMessage(resp.body.message)))
    else Ok(resp.body.data)
  }

  /** The body a report handler's envelope travels as. */
  function Served<T>(env: StatsApi.Envelope<T>): Body<T> {
    Body(env.success, None, env.data)
  }

  /** A report handler's answer, delivered with an ok status, comes back to the page as the query result itself. */
  lemma EnvelopeRoundTrip<T>(data: T, statusText: string)
    ensures Unwrap(Response(true, statusText, Served(StatsApi.Respond(data)))) == Ok(data)
  {
  }

  /** `apiRequest`: build the query string one parameter at a time, fetch, then unwrap. */
  method ApiRequest<T>(config: ClientConfig, endpoint: string, params: seq<(string, JsParam)>,
                       fetch: Request -> Response<T>) returns (r: Result<T, ApiError>)
    ensures r == Unwrap(fetch(Request(config.apiUrl + endpoint, PresentParams(params), config.nonce)))
  {
    var query: seq<(string, string)> := [];
    var i := 0;
    while i < |params|
      invariant 0 <= i <= |params|
      invariant query == PresentParams(params[..i])
    {
      assert params[..i + 1][..i] == params[..i];
      if params[i].1.Given? {
        query := query + [(params[i].0, params[i].1.text)];
      }
      i := i + 1;
    }
    assert params[..|params|] == params;
    var response := fetch(Request(config.apiUrl + endpoint, query, config.nonce));
    if !response.ok {
      return Err(ApiError("API request failed: " + response.statusText));
    }
    if !response.body.success {
      return Err(ApiError(FailureMessage(response.body.message)));
    }
    return Ok(response.body.data);
  }

  // ---------------------------------------------------------------
  // Date ranges
  // ---------------------------------------------------------------

  /** A calendar day as the date picker holds it. */
  datatype CalendarDate = CalendarDate(year: nat, month: nat, day: nat)

  /** The dashboard's date range: either end may be unset; `preset` names the button that chose it. */
  datatype DateRange = DateRange(startDate: Option<CalendarDate>, endDate: Option<CalendarDate>, preset: string)

  /** `format(d, 'yyyy-MM-dd')`: the extended calendar-date form of ISO 8601 (section 4.1.2.2 of ISO 8601:2004). */
  function FormatIso(d: CalendarDate): (s: string)
    ensures d.year < 10000 && d.month < 100 && d.day < 100 ==>
              |s| == 10 && s[4] == '-' && s[7] == '-' && AllDigits(s[..4]) && AllDigits(s[5..7]) && AllDigits(s[8..])
  {
    var y := PadLeft(NatToString(d.year), 4, '0');
    var m := PadLeft(NatToString(d.month), 2, '0');
    var dd := PadLeft(NatToString(d.day), 2, '0');
    if d.year < 10000 && d.month < 100 && d.day < 100 then
      PaddedField(d.year, 4);
      PaddedField(d.month, 2);
      PaddedField(d.day, 2);
      IsoSplit(y, m, dd);
      y + "-" + m + "-" + dd
    else y + "-" + m + "-" + dd
  }

  /** The three fields of a `YYYY-MM-DD` text, cut back out of it. */
  lemma IsoSplit(y: string, m: string, d: string)
    requires |y| == 4 && |m| == 2 && |d| == 2
    ensures var s := y + "-" + m + "-" + d;
            |s| == 10 && s[4] == '-' && s[7] == '-' && s[..4] == y && s[5..7] == m && s[8..] == d
  {
    var s := y + "-" + m + "-" + d;
    assert s[..4] == y;
    assert s[5..7] == m;
    assert s[8..] == d;
  }

  /** A zero-padded field reads back as its number. */
  lemma PaddedField(n: nat, width: nat)
    requires 1 <= width <= 4 && n < Pow10(width)
    ensures var s := PadLeft(NatToString(n), width, '0');
            |s| == width && AllDigits(s) && DigitsValue(s) == n
  {
    NatToStringFits(n, width);
    PadZerosValue(NatToString(n), width);
    NatToStringRoundTrip(n);
  }

  /** `formatDateRange`: nothing unless both ends are set, else exactly `start_date` and `end_date`. */
  function FormatDateRange(range: Option<DateRange>): (r: seq<(string, string)>)
    ensures r == [] <==> range.None? || range.value.startDate.None? || range.value.endDate.None?
    ensures r != [] ==> r == [("start_date", FormatIso(range.value.startDate.value)),
                              ("end_date", FormatIso(range.value.endDate.value))]
  {
    if range.None? || range.value.startDate.None? || range.value.endDate.None? then []
    else [("start_date", FormatIso(range.value.startDate.value)), ("end_date", FormatIso(range.value.endDate.value))]
  }

  /** The server reads a formatted date back as the same year, month and day. */
  lemma FormatIsoParses(d: CalendarDate)
    requires d.year < 10000 && d.month < 100 && d.day < 100
    ensures StatsApi.IsoDateParse(FormatIso(d)) == StatsApi.ParsedDate(0, d.year, d.month, d.day)
  {
    var y := PadLeft(NatToString(d.year), 4, '0');
    var m := PadLeft(NatToString(d.month), 2, '0');
    var dd := PadLeft(NatToString(d.day), 2, '0');
    PaddedField(d.year, 4);
    PaddedField(d.month, 2);
    PaddedField(d.day, 2);
    IsoSplit(y, m, dd);
  }

  /**
   * Every range the page sends passes the server's date validation
   * exactly when its two days are real calendar dates.
   */
  lemma FormattedRangeValidates(range: DateRange)
    requires range.startDate.Some? && range.endDate.Some?
    requires var a, b := range.startDate.value, range.endDate.value;
             a.year < 10000 && a.month < 100 && a.day < 100 && b.year < 10000 && b.month < 100 && b.day < 100
    ensures var r := FormatDateRange(Some(range));
            var a, b := range.startDate.value, range.endDate.value;
            (StatsApi.DateRangeArgs(Some(r[0].1), Some(r[1].1), StatsApi.IsoDateParse, s => s).Ok?
             <==> StatsApi.CheckDate(a.month, a.day, a.year) && StatsApi.CheckDate(b.month, b.day, b.year))
  {
    var a, b := range.startDate.value, range.endDate.value;
    var r := FormatDateRange(Some(range));
    assert r[0].1 == FormatIso(a) && r[1].1 == FormatIso(b);
    FormattedDateValidates(a);
    FormattedDateValidates(b);
  }

  /** One formatted day passes the server's date validation exactly when it is a real calendar date. */
  lemma FormattedDateValidates(d: CalendarDate)
    requires d.year < 10000 && d.month < 100 && d.day < 100
    ensures StatsApi.ValidateDate(Some(FormatIso(d)), StatsApi.IsoDateParse) <==> StatsApi.CheckDate(d.month, d.day, d.year)
  {
    FormatIsoParses(d);
    ParsedTextValidates(FormatIso(d), d.year, d.month, d.day);
  }

  /** A ten-character text that parses without errors passes the date check exactly when its fields are a date. */
  lemma ParsedTextValidates(s: string, year: int, month: int, day: int)
    requires |s| == 10 && StatsApi.IsoDateParse(s) == StatsApi.ParsedDate(0, year, month, day)
    ensures StatsApi.ValidateDate(Some(s), StatsApi.IsoDateParse) <==> StatsApi.CheckDate(month, day, year)
  {
    assert !EmptyString(Some(s));
  }

  // ---------------------------------------------------------------
  // Currency
  // ---------------------------------------------------------------

  const Symbols: map<string, string> := map["USD" := "$", "EUR" := "€", "GBP" := "£", "JPY" := "¥"]

  /** `getCurrencySymbol`: the symbol of the four known codes, `$` for any other. */
  function CurrencySymbol(code: string): (s: string)
    ensures s in Symbols.Values
    ensures code in Symbols ==> s == Symbols[code]
    ensures code !in Symbols ==> s == "$"
  {
    assert Symbols["USD"] == "$";
    if code in Symbols then Symbols[code] else "$"
  }

  /** `formatCurrency`, with `Intl.NumberFormat` as the parameter `number` applied to the absolute value. */
  function FormatCurrency(value: real, code: string, number: real -> string): (s: string)
    ensures value < 0.0 ==> s == "-" + CurrencySymbol(code) + number(-value)
    ensures value >= 0.0 ==> s == CurrencySymbol(code) + number(value)
  {
    var magnitude := if value < 0.0 then -value else value;
    if value < 0.0 then "-" + CurrencySymbol(code) + number(magnitude)
    else CurrencySymbol(code) + number(magnitude)
  }

  /** A negative amount is its magnitude's rendering behind a minus sign. */
  lemma NegativeAddsSign(value: real, code: string, number: real -> string)
    requires value > 0.0
    ensures FormatCurrency(-value, code, number) == "-" + FormatCurrency(value, code, number)
  {
  }

  /** The rendering starts with a minus sign exactly for negative amounts. */
  lemma SignShown(value: real, code: string, number: real -> string)
    ensures StartsWith(FormatCurrency(value, code, number), "-") <==> value < 0.0
  {
    var sym := CurrencySymbol(code);
    assert sym[0] != '-';
    if value >= 0.0 {
      assert FormatCurrency(value, code, number)[0] == sym[0];
    }
  }
}
