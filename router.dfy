/** The decision logic of the `/history/{ticker}` endpoint (src/router.py,
    `get_history`) and the period argument it hands the price provider
    (src/robot/yahoo.py).

    The date parser (`datetime.strptime(s, "%Y-%m-%d")`) and the provider call
    followed by CSV serialisation are calls into code outside the model; they
    are parameters here, so every property below holds for ANY parser and ANY
    provider. */
module Router {
  import opened Wrappers
  import opened History

  /** A calendar date, as `strptime` with `%Y-%m-%d` produces it. */
  datatype Date = Date(year: int, month: int, day: int)

  /** `parse_date`: a date, or the message of the `ValueError` it raises. */
  type DateParser = string -> Result<Date, string>

  /** What `yahoo.get_history` receives: the ticker, the parsed dates and the
      period already turned into its provider code. */
  datatype ProviderQuery = ProviderQuery(
    ticker: string, start: Option<Date>, end: Option<Date>, period: Option<string>)

  /** `yahoo.get_history` followed by `to_csv`: the CSV text, or the message of
      whatever exception either of them raised. */
  type CsvProvider = ProviderQuery -> Result<string, string>

  /** The outcome of the checks `get_history` makes before any upstream call. */
  datatype Resolution =
    | Conflict
    | DateFormatError(reason: string)
    | ProviderCall(start: Option<Date>, end: Option<Date>, period: Option<Period>)

  /** What the endpoint answers: a plain-text CSV body or an `HTTPException`. */
  datatype Response =
    | PlainText(body: string)
    | HttpError(status: int, detail: string)

  const HTTP_400_BAD_REQUEST: int := 400
  const HTTP_500_INTERNAL_SERVER_ERROR: int := 500

  /** The two 400 details share this opening and differ right after it. */
  const BAD_REQUEST: string := "Bad request "
  const BAD_PARAMS_DETAIL: string :=
    BAD_REQUEST + "params to API, " + "please refer to /docs for details"
  const BAD_DATE_PREFIX: string := BAD_REQUEST + "date format: "
  const PROVIDER_ERROR_PREFIX: string := "Historical data triggered internal error: "

  /** The period used when none is given and the dates do not bound the range. */
  const DEFAULT_PERIOD: Period := Max

  /** The only combination of query parameters the endpoint refuses outright. */
  predicate AllSupplied(start: Option<string>, end: Option<string>, period: Option<Period>)
    : (conflict: bool)
    ensures !conflict <==> start.None? || end.None? || period.None?
  {
    start.Some? && end.Some? && period.Some?
  }

  /** The period after the defaulting rule: a missing period becomes MAX unless
      both dates are given. */
  function EffectivePeriod(start: Option<string>, end: Option<string>, period: Option<Period>)
    : (r: Option<Period>)
    ensures period.Some? ==> r == period
    ensures r.None? <==> period.None? && start.Some? && end.Some?
    ensures r.Some? && period.None? ==> r == Some(DEFAULT_PERIOD)
  {
    if period.None? && (start.None? || end.None?) then Some(DEFAULT_PERIOD) else period
  }

  /** `parse_date(s) if s is not None else None`. */
  function ParseOptional(s: Option<string>, parse: DateParser): (r: Result<Option<Date>, string>)
    ensures r.Success? ==> (r.value.Some? <==> s.Some?)
    ensures r.Success? && s.Some? ==> parse(s.value) == Success(r.value.value)
    ensures r.Failure? <==> s.Some? && parse(s.value).Failure?
    ensures r.Failure? ==> parse(s.value) == Failure(r.error)
  {
    match s
    case None => Success(None)
    case Some(text) =>
      match parse(text)
      case Success(d) => Success(Some(d))
      case Failure(e) => Failure(e)
  }

  /** The conflict check, the period default and the date parsing, in the
      order `get_history` makes them: start is parsed before end. */
  function Resolve(start: Option<string>, end: Option<string>, period: Option<Period>,
                   parse: DateParser): (r: Resolution)
    ensures r.Conflict? <==> AllSupplied(start, end, period)
    ensures r.DateFormatError? ==>
      (start.Some? && parse(start.value) == Failure(r.reason)) ||
      (end.Some? && parse(end.value) == Failure(r.reason))
    ensures r.ProviderCall? ==> ParseOptional(start, parse) == Success(r.start)
    ensures r.ProviderCall? ==> ParseOptional(end, parse) == Success(r.end)
    ensures r.ProviderCall? ==> r.period == EffectivePeriod(start, end, period)
    ensures r.ProviderCall? ==> r.period.Some? || (r.start.Some? && r.end.Some?)
  {
    if AllSupplied(start, end, period) then Conflict
    else
      var p := EffectivePeriod(start, end, period);
      match ParseOptional(start, parse)
      case Failure(e) => DateFormatError(e)
      case Success(s) =>
        match ParseOptional(end, parse)
        case Failure(e) => DateFormatError(e)
        case Success(t) => ProviderCall(s, t, p)
  }

  /** `period.value if period is not None else None` (src/robot/yahoo.py). */
  function ProviderPeriod(period: Option<Period>): (code: Option<string>)
    ensures code.Some? <==> period.Some?
    ensures code.Some? ==> FromValue(code.value) == period
  {
    match period
    case None => None
    case Some(p) => FromValueOfValue(p); Some(Value(p))
  }

  /** The whole endpoint: 400 for a conflict or a malformed date, otherwise the
      provider is asked and any failure there becomes a 500. */
  function GetHistory(ticker: string, start: Option<string>, end: Option<string>,
                      period: Option<Period>, parse: DateParser, fetch: CsvProvider)
    : (r: Response)
    ensures r.HttpError? ==> r.status == HTTP_400_BAD_REQUEST || r.status == HTTP_500_INTERNAL_SERVER_ERROR
    ensures r == HttpError(HTTP_400_BAD_REQUEST, BAD_PARAMS_DETAIL) <==> AllSupplied(start, end, period)
    ensures r.PlainText? ==> !AllSupplied(start, end, period)
  {
    match Resolve(start, end, period, parse)
    case Conflict => HttpError(HTTP_400_BAD_REQUEST, BAD_PARAMS_DETAIL)
    case DateFormatError(e) =>
      assert (BAD_DATE_PREFIX + e)[|BAD_REQUEST|] == 'd' != BAD_PARAMS_DETAIL[|BAD_REQUEST|];
      HttpError(HTTP_400_BAD_REQUEST, BAD_DATE_PREFIX + e)
    case ProviderCall(s, t, p) =>
      match fetch(QueryFor(ticker, ProviderCall(s, t, p)))
      case Success(csv) => PlainText(csv)
      case Failure(e) => HttpError(HTTP_500_INTERNAL_SERVER_ERROR, PROVIDER_ERROR_PREFIX + e)
  }

  /** The query `get_history` sends upstream once its checks have passed. */
  function QueryFor(ticker: string, r: Resolution): (q: ProviderQuery)
    requires r.ProviderCall?
    ensures q.ticker == ticker && q.start == r.start && q.end == r.end
    ensures q.period.Some? <==> r.period.Some?
    ensures q.period.Some? ==> FromValue(q.period.value) == r.period
  {
    ProviderQuery(ticker, r.start, r.end, ProviderPeriod(r.period))
  }

  /** The conflict check comes first: an all-three request is refused with the
      bad-params error whatever its dates look like and whatever the provider
      would do. */
  lemma ConflictPrecedesDateParsing(ticker: string, start: Option<string>, end: Option<string>,
                                    period: Option<Period>, parse: DateParser, fetch: CsvProvider)
    requires AllSupplied(start, end, period)
    ensures GetHistory(ticker, start, end, period, parse, fetch)
         == HttpError(HTTP_400_BAD_REQUEST, BAD_PARAMS_DETAIL)
  {
  }

  /** Only the all-three combination is a conflict: a start or an end date
      together with a period is accepted and forwarded. */
  lemma DateWithPeriodAccepted(start: Option<string>, end: Option<string>, p: Period,
                               parse: DateParser)
    requires start.None? || end.None?
    requires start.Some? ==> parse(start.value).Success?
    requires end.Some? ==> parse(end.value).Success?
    ensures Resolve(start, end, Some(p), parse) ==
      ProviderCall(if start.Some? then Some(parse(start.value).value) else None,
                   if end.Some? then Some(parse(end.value).value) else None,
                   Some(p))
  {
  }

  /** A missing period becomes MAX, whose code is "max", unless both dates
      bound the range; then no period is sent at all. A given period is never
      replaced. */
  lemma PeriodDefaulting(ticker: string, start: Option<string>, end: Option<string>,
                         period: Option<Period>, parse: DateParser)
    requires Resolve(start, end, period, parse).ProviderCall?
    ensures var q := QueryFor(ticker, Resolve(start, end, period, parse));
      && (period.Some? ==> q.period == Some(Value(period.value)))
      && (period.None? && (start.None? || end.None?) ==> q.period == Some("max"))
      && (period.None? && start.Some? && end.Some? ==> q.period.None?)
      && (q.period.Some? || (q.start.Some? && q.end.Some?))
  {
  }

  /** A malformed date is a 400 carrying the parser's message (start's when
      both are malformed), and the provider is never asked: the answer is the
      same whatever the provider would do. */
  lemma BadDateSkipsProvider(ticker: string, start: Option<string>, end: Option<string>,
                             period: Option<Period>, parse: DateParser,
                             fetch: CsvProvider, other: CsvProvider)
    requires !AllSupplied(start, end, period)
    requires (start.Some? && parse(start.value).Failure?) || (end.Some? && parse(end.value).Failure?)
    ensures var r := GetHistory(ticker, start, end, period, parse, fetch);
      && r == GetHistory(ticker, start, end, period, parse, other)
      && r.HttpError? && r.status == HTTP_400_BAD_REQUEST
      && r.detail == BAD_DATE_PREFIX +
           (if start.Some? && parse(start.value).Failure? then parse(start.value).error
            else parse(end.value).error)
  {
  }

  /** A failure of the provider or of serialisation is always a 500 carrying
      its message, never a 400; and every 500 comes from such a failure. */
  lemma ProviderFailureIsServerError(ticker: string, start: Option<string>, end: Option<string>,
                                     period: Option<Period>, parse: DateParser, fetch: CsvProvider)
    ensures var r := GetHistory(ticker, start, end, period, parse, fetch);
      var res := Resolve(start, end, period, parse);
      (r.HttpError? && r.status == HTTP_500_INTERNAL_SERVER_ERROR) <==>
        (res.ProviderCall? && fetch(QueryFor(ticker, res)).Failure?)
    ensures var r := GetHistory(ticker, start, end, period, parse, fetch);
      var res := Resolve(start, end, period, parse);
      res.ProviderCall? && fetch(QueryFor(ticker, res)).Failure? ==>
        r == HttpError(HTTP_500_INTERNAL_SERVER_ERROR,
                       PROVIDER_ERROR_PREFIX + fetch(QueryFor(ticker, res)).error)
  {
  }

  /** The CSV body is returned exactly when every check passed and the provider
      produced it. */
  lemma SuccessIsProviderCsv(ticker: string, start: Option<string>, end: Option<string>,
                             period: Option<Period>, parse: DateParser, fetch: CsvProvider)
    ensures var r := GetHistory(ticker, start, end, period, parse, fetch);
      var res := Resolve(start, end, period, parse);
      r.PlainText? <==> (res.ProviderCall? && fetch(QueryFor(ticker, res)).Success?)
    ensures var r := GetHistory(ticker, start, end, period, parse, fetch);
      var res := Resolve(start, end, period, parse);
      r.PlainText? ==> r.body == fetch(QueryFor(ticker, res)).value
  {
  }
}
