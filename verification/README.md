# Heat-alert pipeline of the xweather forecast viewer, in Dafny

This project models the forecast-to-alert logic of `main.py`:

- `get_daily_forecast` forms the forecast request for a location and classifies what comes back. The outcomes are a transport failure, an HTTP error status, a body that is not JSON, or a JSON envelope. It then navigates `response[0].periods` and, on success, builds one table row per period.
- `get_weather_icon` classifies a weather description by keyword, in a fixed priority order.
- `analyze_forecast` walks the periods in order. For every period whose `maxTempC` is present and strictly above 35 °C, it composes an alert and hands it to the dispatcher.
- `send_email_alert` is the dispatch gate. It skips when any of the three mail settings is unset or empty. Otherwise it makes one send attempt and catches any failure.

The network, the mail transport, `str.title()` and the two `strftime` date renderings are inputs:

- `transport: Request -> Exchange` is the reply the service gives to a request.
- `smtp: nat -> SmtpResult` is what the mail transport does with the k-th send attempt.
- `Formatting` holds the uninterpreted title and date renderers.

Modules:

- `ForecastData`: `Option`, JSON fields that may be absent or null, periods, renderers.
- `Text`: ASCII case mapping and substring search.
- `Icons`: the classifier.
- `ForecastClient`: request, envelope, outcome, rows, messages.
- `AlertDispatcher`: the gate.
- `ConditionEvaluator`: alert selection and the dispatch loop.

The model follows the code in these details, some of which are easy to misread:

- Only statuses 400–599 are HTTP errors, because `raise_for_status` raises only for those. Other statuses go on to JSON decoding.
- A 404 and an empty period list give two different messages.
- An empty `response` list raises an uncaught `IndexError`; a null `response` raises an uncaught `TypeError`. Neither is reported as "not found".
- A body that is not JSON raises `JSONDecodeError`, which `requests` (2.27 and later) derives from `RequestException`. It therefore gets the "Error connecting to the API" message.
- The three mail settings are tested by Python truthiness, so an empty string counts as unset.
- A `maxTempC` key that is present with `null` is skipped by `analyze_forecast`. In a table row it shows as `None`, not `N/A`.
- A credential that is `None` is left out of the query string, because `requests` drops `None`-valued parameters.

## Model

| member | source | states |
|---|---|---|
| `Text.Lower` | main.py:20 | lower-casing keeps the length and maps every character by itself; no upper-case ASCII letter remains |
| `Icons.FirstHit` | main.py:21-32 | gives the least position of a keyword group that occurs in the text, or the table length when none occurs |
| `Icons.WeatherIconIsFirstHit` | main.py:18-32 | the icon is that of the first matching group in the order rain, cloud, clear/sun, snow, storm/thunder, and the default when no group matches |
| `Icons.DefaultOnlyWithoutKeyword` | main.py:31-32 | the default icon is returned if and only if no keyword of any group occurs in the lower-cased text |
| `Icons.WeatherIconIgnoresCase` | main.py:20 | changing the case of ASCII letters first, to lower or to upper case, does not change the icon |
| `Icons.ThunderstormWithRainIsRain` | main.py:21-30 | "Thunderstorm with rain" gets the rain icon, because rain outranks storm/thunder |
| `ForecastClient.ForecastRequest` | main.py:79-86 | the URL is the base URL, then `/forecasts/`, then the location verbatim; the query has `client_id` and `client_secret` exactly when they are set, `filter=daily` and `limit=10`; like the dictionary it comes from, it names only these four keys, each at most once |
| `ForecastClient.NavigatePeriods` | main.py:95 | raises exactly when `response` is null (a `TypeError`) or an empty list (an `IndexError`); yields a non-empty list exactly when `response[0].periods` is a non-empty list, and then that list |
| `ForecastClient.CellOf` | main.py:107-108 | a temperature cell is `N/A` exactly when the key is missing, `None` exactly when it is null, and the number otherwise |
| `ForecastClient.GetDailyForecast` | main.py:77-125 | the outcome classes are an if-and-only-if partition: 404 is "location not found" with the location verbatim, other 4xx/5xx are HTTP errors, transport or decoding failures are connection errors, no periods is "no forecast data", an empty or null `response` escapes uncaught; success returns the periods unchanged with exactly one row per period in order |
| `ForecastClient.ErrorMessage` | main.py:97-125 | each message starts with the fixed prefix of its kind, followed directly by what it reports: the location verbatim for a 404, the HTTP error's text, the connection or decoding exception's text, the title-cased location when there is no forecast data |
| `ForecastClient.MessageMarks` | main.py:97-125 | the kind of a message can be read off two characters of its fixed prefix |
| `ForecastClient.ErrorMessagesDistinct` | main.py:97-125 | messages of two different error kinds are never equal, whatever they carry |
| `AlertDispatcher.SendEmailAlert` | main.py:56-75 | skipped, with nothing composed, if and only if a setting is missing or empty; otherwise the message goes from sender to receiver with the given subject and body, is sent if and only if the attempt succeeds, and an exception raised by the send attempt comes back as a failure with its cause instead of escaping |
| `ConditionEvaluator.HeatAlerts` | main.py:38-48 | no more alerts than periods; every alert has the same subject, which depends only on the location; every alert carries a maximum above 35 |
| `ConditionEvaluator.HotFrom` | main.py:38-40 | lists, in strictly increasing order, exactly the positions whose `maxTempC` is present and above 35 |
| `ConditionEvaluator.AlertsFollowHotFrom` | main.py:38-45 | from any starting position on, the alerts correspond one to one, in order, to the hot positions, each built from its own period |
| `ConditionEvaluator.AlertPerHotDay` | main.py:36-45 | an alert exists for a period if and only if its maximum is present and strictly above 35; the k-th alert carries the maximum and the date of the k-th hot period; hot neighbours are not merged |
| `ConditionEvaluator.HeatAlertsSnoc` | main.py:38-48 | evaluating one more period appends that period's alert when it is hot, and nothing otherwise |
| `ConditionEvaluator.AnalyzeForecast` | main.py:34-48 | one dispatcher call per alert, in order, each with its own attempt, whatever earlier calls returned; with a missing setting every call is skipped |
| `ConditionEvaluator.ThresholdExample` | main.py:36-40 | maxima 30, 35, 35.1, 40 alert for the last two periods only: 35 itself does not alert |

## Left out

- `scheduler.py`: the daily trigger is the external `schedule` library, the driver is an endless sleep-and-poll loop, and `run_automated_check` only prints and calls the two modelled functions.
- The HTTP exchange (`requests.get`, `raise_for_status`, `response.json`). It is the `transport` input. The text of an `HTTPError` is carried by the reply as given, and percent-encoding of the URL is not modelled.
- The SMTP session (host `smtp.gmail.com`, port 465, login, submission). It is the `smtp` input, one result per attempt.
- `tabulate` and the rendered table, its column headings and the heading line. The model keeps the rows and the title-cased location.
- Emoji icons. They are the six values of `Icons.Icon`.
- The printed notices. The skip notice, the success line and the caught error line correspond to the three `Delivery` values, except that a session close that raises after submission prints both of the last two (see the `AlertDispatcher.SendEmailAlert` line below).
- The rendering of the temperature inside the alert body. The body keeps the number and the date it is rendered from.
- `datetime.fromisoformat(..).strftime(..)` and `str.title()`. They are uninterpreted functions in `Formatting`. A malformed `dateTimeISO` (an uncaught `ValueError`) is therefore not modelled, and neither is the fact that `analyze_forecast` parses dates only for hot periods.
- Missing `dateTimeISO` or `weather` keys (uncaught `KeyError`), a `response` that is not a list, and entries that are not objects. Periods always carry both strings, and temperatures are numbers.
- A reply with a non-error status whose top-level JSON value is not an object. The lookup of `response` then raises an uncaught `AttributeError`, but `Body` has only a decoding error and an envelope object.
- A `periods` value that is not a list. `Field<seq<Period>>` types it away.
- AlertDispatcher.SendEmailAlert: does not model the `ValueError` that composing the message (main.py:62-66, before the `try`) raises for a header value with a line break. Such a value can come from the title-cased location in the subject or from the sender and receiver settings. That exception escapes the gate and ends the rest of `analyze_forecast`'s loop, so "nothing escapes" holds only for the send attempt itself. `Failed` also covers a message that was already submitted when closing the session raised: leaving the `with smtplib.SMTP_SSL(...)` block sends QUIT after the success line is printed, any reply other than 221 raises `SMTPResponseException`, and the source then prints both the success line and the error line.
- Text.Lower: lower-cases ASCII letters only, while Python's `str.lower` also maps other Unicode letters.
- Icons.WeatherIconIgnoresCase: covers ASCII case changes only. Python's `str.upper` maps some non-ASCII letters to ASCII ones (dotless `ı` to `I`, long `ſ` to `S`, the ligature `ﬆ` to `ST`), so upper-casing such a description first can change the icon: `raın` gets the default icon, its upper-cased form `RAIN` the rain icon.
- Loading the five settings from the environment (`load_dotenv`, `os.getenv`). They are passed in as `ApiConfig` and `MailConfig`.
- The interactive block at the end of `main.py`. Its call at main.py:134, like the one at scheduler.py:18, unpacks two values from the error paths, which return one string. It tests the `None` that `analyze_forecast` returns, so the alert listing never prints.
- Floating point. Temperatures are `real`, and they are only compared.
