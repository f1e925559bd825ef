# finance-api: history parameters, finviz tags and history periods

This project models the decision logic of the finance-api HTTP service, a
FastAPI application. The service serves price history from the yfinance
provider and tag links scraped from finviz.com. The model covers three pieces:

- **`Period`** (`History`). This is the closed enumeration of history periods,
  with each member's provider code. `FromValue` is the value lookup that turns
  a query string into a member. It is modelled as a search over the members in
  declaration order.
- **`get_history`** (`Router`). This is the `/history/{ticker}` endpoint.
  - A request that supplies `start`, `end` and `period` together is rejected
    with a 400.
  - A missing period defaults to `MAX` unless both dates are given.
  - `start` is parsed first, then `end`, with `%Y-%m-%d`. A parse failure is a
    400 that carries the parser's message.
  - Any failure of the provider call or of CSV serialisation is a 500.
  - On success the CSV text is returned as plain text.
  - The period sent to the provider is the member's value,
    `period.value if period is not None else None`.

  The date parser and "provider + serialisation" are function-typed
  parameters. Every property is therefore proved for every parser and every
  provider.
- **`get_tags`** (`Finviz`). The model starts after the page has been fetched
  and parsed. Its input is `None` when `.quote-links div` selects nothing.
  Otherwise it is the anchors inside that container, in document order.
  - With no container, `get_tags` fails with
    `ElementNotFoundError("Tags container not found")`.
  - With no anchors, it fails with `ElementNotFoundError("Tags not found")`.
  - Otherwise it returns one `(Name, Link)` row per anchor, in order. The link
    is `https://finviz.com/` followed by the anchor's `href`.
  - An anchor without an `href` gets the link `https://finviz.com/None`. This
    is what the f-string makes of `tag.get("href")` when it returns `None`, so
    `Anchor.href` is an `Option`.

The files are `wrappers.dfy` (`Option`, `Result`), `history.dfy`,
`router.dfy` and `finviz.dfy`.

## Model

| member | source | states |
|---|---|---|
| History.Value | src/models/history.py:17-27 | Every code is a two- or three-character token. "max" is the code of MAX and of no other member. |
| History.FindByValue | src/models/history.py:12-27 | A found member is in the searched list and has the looked-up value. Nothing is found exactly when no listed member has that value. |
| History.FromValue | src/models/history.py:12-27 | The member returned for a code has that code as its value. The lookup fails exactly when the code is not one of the enum's codes. |
| History.PeriodCodes | src/models/history.py:17-27 | The set of accepted codes holds every member's value and nothing else. |
| History.AllPeriodsComplete | src/models/history.py:12-27 | The list of members has eleven entries. It contains every member, and no member appears twice. |
| History.ValueInjective | src/models/history.py:17-27 | No two members share a code. |
| History.FromValueOfValue | src/models/history.py:12-27 | Looking a member up by its own value gives that member back. |
| History.ValueTable | src/models/history.py:17-27 | Each member has its fixed code: 1d, 5d, 1mo, 3mo, 6mo, 1y, 2y, 5y, 10y, ytd, max. |
| History.CodeCount | src/models/history.py:17-27 | Pairwise distinct members have as many distinct codes as there are members. |
| History.PeriodCodesCount | src/models/history.py:17-27 | The enum accepts exactly eleven distinct codes. |
| Router.AllSupplied | src/router.py:27 | The request is a conflict unless at least one of start, end and period is missing. |
| Router.EffectivePeriod | src/router.py:33-34 | A supplied period is kept. Defaulting leaves the period absent exactly when none was given and both dates were. Otherwise a missing period becomes MAX. |
| Router.ParseOptional | src/router.py:36-41 | A supplied date is forwarded exactly when the parser accepts it. An absent date stays absent. A failure carries the parser's message. |
| Router.Resolve | src/router.py:27-45 | The result is a conflict exactly when all three parameters are supplied. A date-format error carries the message of a rejected supplied date. A provider call forwards every supplied date parsed and uses the defaulted period. That call always has a period or both dates. |
| Router.ProviderPeriod | src/robot/yahoo.py:37 | A period code is sent exactly when a period is present. Looking that code up gives the period back. |
| Router.QueryFor | src/router.py:48 | The upstream query carries the ticker and the resolved dates. It carries a period code exactly when a period was resolved, and that code looks up to the resolved period. |
| Router.GetHistory | src/router.py:20-56 | Every error status is 400 or 500. The bad-params 400 is answered exactly when start, end and period are all supplied. A CSV body is never returned for such a request. |
| Router.ConflictPrecedesDateParsing | src/router.py:27-45 | An all-three request gets the bad-params 400, whatever its dates and whatever the provider. |
| Router.DateWithPeriodAccepted | src/router.py:27-41 | A start or an end date combined with a period is not rejected. Its parsed dates and the given period go to the provider. |
| Router.PeriodDefaulting | src/router.py:33-34 | A given period reaches the provider as its own code. Without a period and with a date missing, the provider gets "max". With both dates and no period, no period is sent. The provider always gets a period or both dates. |
| Router.BadDateSkipsProvider | src/router.py:39-45 | A malformed date gives a 400 whose detail is the parser's message. When both dates are malformed, the message is start's. The answer does not depend on the provider, so the provider is not called. |
| Router.ProviderFailureIsServerError | src/router.py:47-56 | A 500 is answered exactly when the checks pass and the provider or serialisation fails. It carries that failure's message. |
| Router.SuccessIsProviderCsv | src/router.py:47-51 | A plain-text body is returned exactly when the checks pass and the provider succeeds. The body is the provider's CSV. |
| Finviz.HrefText | src/robot/finviz.py:47 | The f-string renders a present href as itself and a missing one (`tag.get("href")` is `None`) as "None". |
| Finviz.RowOf | src/robot/finviz.py:47 | A row's name is the anchor text unchanged. Its link starts with the base URL, and what follows the base URL is the rendered href. |
| Finviz.Rows | src/robot/finviz.py:47 | There is one row per anchor, and the i-th row is built from the i-th anchor. |
| Finviz.GetTags | src/robot/finviz.py:39-48 | A missing container gives "Tags container not found". A container without anchors gives "Tags not found". Success happens exactly when there is at least one anchor, with as many rows as anchors. |
| Finviz.SameRowIff | src/robot/finviz.py:47 | Two anchors give the same row exactly when their texts are equal and their hrefs render the same. So an anchor without an href yields the same row as one whose href is the literal "None". |
| Finviz.RowsAppend | src/robot/finviz.py:47 | The rows of two concatenated anchor lists are the concatenation of their rows. |
| Finviz.RowsPrefix | src/robot/finviz.py:47 | The rows of a prefix of the anchors are the same prefix of the rows. |
| Finviz.TagsFollowAnchors | src/robot/finviz.py:43-47 | On success, row i has anchor i's text as its name. Its link is the base URL plus anchor i's href, begins with "https://finviz.com/", and what follows that prefix is the rendered href. |
| Finviz.ContainerCheckFirst | src/robot/finviz.py:39-45 | A missing container never reports "Tags not found". The two failure messages differ. |

## Left out

- The HTTP request to finviz.com, the lxml parse and the CSS selection in `get_tags` (src/robot/finviz.py:32-43). These are network and foreign-library calls; only their result is modelled. The requested URL `FINVIZ_STOCK_URL` (src/robot/finviz.py:14) has a double slash (`https://finviz.com//quote.ashx`).
- src/robot/finviz.py:47 nests double quotes inside a double-quoted f-string. That is only valid from Python 3.12 on, and the model assumes such a version.
- `datetime.strptime` with `%Y-%m-%d`. It is a parameter of the model, because its leniency is defined by Python's library.
- `yahoo.get_history` (the yfinance call), pandas `to_csv` and the `StringIO` buffer. They form one provider parameter that returns either CSV text or an exception message. Only the `period.value` mapping (src/robot/yahoo.py:37) is modelled.
- The `ticker` path parameter is forwarded to the provider unchanged; no property is stated about its content.
- FastAPI's own query parsing. An unknown period string is refused by FastAPI before `get_history` runs; `History.FromValue` returning `None` stands for that.
- `HTTPException` and `PlainTextResponse` objects. They are the variants of `Router.Response`.
- src/main.py (port discovery and `uvicorn.run`), src/app.py (app wiring) and src/utils.py (`forge_csv_response`, serialisation plus a header). These are I/O plumbing with no decision logic.
- src/models/financials.py, src/models/statements.py and src/models/__init__.py. These are enum and pydantic declarations with no behaviour.
- Blocking: `get_history` is `async def` (src/router.py:21) but calls the synchronous `yahoo.get_history` directly (src/router.py:48), so the provider call blocks the event loop. The model is made of pure functions and does not capture scheduling.
- `yahoo.get_history` (src/robot/yahoo.py:36-41) returns the provider's frame unfiltered, so no bar is dropped; the model's provider parameter returns the CSV as it is.
- `get_history` rejects only the all-three combination (src/router.py:27). A date together with a period is forwarded, and the model does the same.
