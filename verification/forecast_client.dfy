/**
 * The forecast client (`get_daily_forecast`): forms the request for a
 * location, classifies what the transport returns, navigates the JSON
 * envelope to the list of daily periods and builds one table row per period.
 * The HTTP exchange itself is an input: `transport` gives the reply the
 * service sends to a request.
 */
module ForecastClient {
  import opened ForecastData
  import opened Text
  import opened Icons

  const BaseUrl := "https://data.api.xweather.com"
  const ForecastsPath := "/forecasts/"

  /** The keys of the query, in the order the request lists them. */
  const QueryKeys := ["client_id", "client_secret", "filter", "limit"]

  /** The API credentials, each possibly unset in the environment. */
  datatype ApiConfig = ApiConfig(clientId: Option<string>, clientSecret: Option<string>)

  /** A GET request: the URL and the query parameters in order. */
  datatype Request = Request(url: string, params: seq<(string, string)>)

  /** The value of the first parameter named `key`, if any. */
  function Lookup(params: seq<(string, string)>, key: string): Option<string> {
    if params == [] then None
    else if params[0].0 == key then Some(params[0].1)
    else Lookup(params[1..], key)
  }

  /** A query parameter whose value is `None` is dropped by the HTTP library. */
  function Param(key: string, value: Option<string>): seq<(string, string)> {
    match value
    case None => []
    case Some(v) => [(key, v)]
  }

  /**
   * The request for `location`: the location goes verbatim after the
   * forecasts path, and the query carries the credentials that are set, the
   * daily filter and a limit of ten periods. Like the dictionary it is built
   * from, the query names only these four keys, each at most once.
   */
  function ForecastRequest(location: string, api: ApiConfig): (r: Request)
    ensures |r.url| == |BaseUrl| + |ForecastsPath| + |location|
    ensures r.url[..|BaseUrl|] == BaseUrl
    ensures OccursAt(r.url, ForecastsPath, |BaseUrl|)
    ensures OccursAt(r.url, location, |BaseUrl| + |ForecastsPath|)
    ensures Lookup(r.params, "client_id") == api.clientId
    ensures Lookup(r.params, "client_secret") == api.clientSecret
    ensures Lookup(r.params, "filter") == Some("daily")
    ensures Lookup(r.params, "limit") == Some("10")
    ensures forall p :: p in r.params ==> p.0 in QueryKeys
    ensures forall i, j :: 0 <= i < j < |r.params| ==> r.params[i].0 != r.params[j].0
  {
    var url := BaseUrl + ForecastsPath + location;
    assert url[|BaseUrl|..|BaseUrl| + |ForecastsPath|] == ForecastsPath;
    assert url[|BaseUrl| + |ForecastsPath|..|url|] == location;
    QueryFacts(api);
    Request(url, Query(api))
  }

  /** The query parameters, in the order of the dictionary they come from. */
  function Query(api: ApiConfig): seq<(string, string)> {
    Param("client_id", api.clientId) + Param("client_secret", api.clientSecret) + [("filter", "daily"), ("limit", "10")]
  }

  /** The query, case by case on which credentials are set. */
  lemma QueryFacts(api: ApiConfig)
    ensures var q := Query(api);
      Lookup(q, "client_id") == api.clientId && Lookup(q, "client_secret") == api.clientSecret
      && Lookup(q, "filter") == Some("daily") && Lookup(q, "limit") == Some("10")
      && (forall p :: p in q ==> p.0 in QueryKeys)
      && (forall i, j :: 0 <= i < j < |q| ==> q[i].0 != q[j].0)
  {
    var fixed := [("filter", "daily"), ("limit", "10")];
    match (api.clientId, api.clientSecret)
    case (None, None) =>
      assert Query(api) == fixed;
    case (Some(id), None) =>
      assert Query(api) == [("client_id", id)] + fixed;
    case (None, Some(secret)) =>
      assert Query(api) == [("client_secret", secret)] + fixed;
    case (Some(id), Some(secret)) =>
      var q := [("client_id", id), ("client_secret", secret)] + fixed;
      assert Query(api) == q;
      assert q[1..] == [("client_secret", secret)] + fixed;
      assert q[1..][1..] == fixed;
      assert Lookup(q[1..], "filter") == Lookup(fixed, "filter") == Some("daily");
      assert Lookup(q[1..], "limit") == Lookup(fixed, "limit") == Some("10");
      assert Lookup(q, "filter") == Lookup(q[1..], "filter") && Lookup(q, "limit") == Lookup(q[1..], "limit");
  }

  /** The JSON body: the first entry of `response` holds the `periods` list. */
  datatype Entry = Entry(periods: Field<seq<Period>>)
  datatype Envelope = Envelope(response: Field<seq<Entry>>)

  /** What `response.json()` produces: a decoding error or the envelope. */
  datatype Body = NotJson(cause: string) | Json(envelope: Envelope)

  /**
   * What the transport returns for one GET: a connection-level failure, or a
   * reply with its status, the text of the HTTP error that reply raises when
   * its status is an error status, and its body.
   */
  datatype Exchange = Unreachable(cause: string) | Reply(status: int, httpError: string, body: Body)

  /** The statuses for which `raise_for_status` raises: client and server errors. */
  predicate IsErrorStatus(status: int) {
    400 <= status < 600
  }

  /** The exceptions that escape `get_daily_forecast` uncaught. */
  datatype PyError = IndexError | TypeError

  /** The result of navigating the envelope: the periods, or an uncaught exception. */
  datatype Navigation = Periods(list: seq<Period>) | Raises(error: PyError)

  /**
   * The navigation to the first entry's period list: a missing `response`
   * falls back to one empty entry, an empty `response` list has no first
   * entry, and a `periods` key that is missing or null gives no periods.
   */
  function NavigatePeriods(env: Envelope): (n: Navigation)
    ensures n.Raises? <==> env.response.Null? || env.response == Present([])
    ensures n.Raises? ==> (n.error == IndexError <==> env.response == Present([]))
    ensures n.Periods? && n.list != [] <==>
      env.response.Present? && env.response.value != [] && env.response.value[0].periods.Present?
      && env.response.value[0].periods.value != []
    ensures n.Periods? && n.list != [] ==> n.list == env.response.value[0].periods.value
  {
    match env.response
    case Absent => Periods([])
    case Null => Raises(TypeError)
    case Present(entries) =>
      if entries == [] then Raises(IndexError)
      else match entries[0].periods
        case Present(list) => Periods(list)
        case _ => Periods([])
  }

  /** A temperature cell: the number, `N/A` for a missing key, `None` for null. */
  datatype Cell = Degrees(value: real) | NotAvailable | NoneShown

  function CellOf(t: Field<real>): (c: Cell)
    ensures c.NotAvailable? <==> t.Absent?
    ensures c.NoneShown? <==> t.Null?
    ensures c.Degrees? ==> t == Present(c.value)
  {
    match t
    case Absent => NotAvailable
    case Null => NoneShown
    case Present(v) => Degrees(v)
  }

  /** One table row: date, icon and weather text, high, low. */
  datatype Row = Row(date: string, icon: Icon, weather: string, high: Cell, low: Cell)

  /** The row for one period, dated with the short date format. */
  function RowFor(day: Period, fmt: Formatting): Row {
    Row(fmt.shortDate(day.dateTimeISO), WeatherIcon(day.weather), day.weather, CellOf(day.maxTempC), CellOf(day.minTempC))
  }

  /**
   * What `get_daily_forecast` produces: the periods with the title-cased
   * location and the table rows, one of four error messages, or an exception
   * that escapes it.
   */
  datatype FetchOutcome =
    | Fetched(periods: seq<Period>, locationTitle: string, rows: seq<Row>)
    | LocationNotFound(location: string)
    | HttpFailed(httpError: string)
    | ConnectionFailed(cause: string)
    | NoForecastData(locationTitle: string)
    | Uncaught(error: PyError)

  /** The reply carried a non-error status and a JSON body. */
  predicate Decoded(ex: Exchange) {
    ex.Reply? && !IsErrorStatus(ex.status) && ex.body.Json?
  }

  /**
   * `get_daily_forecast`: one request, then the outcome, classified in the
   * order `get_daily_forecast` checks them, and on success a row per period
   * in order.
   */
  method GetDailyForecast(location: string, api: ApiConfig, fmt: Formatting, transport: Request -> Exchange)
    returns (r: FetchOutcome)
    ensures var ex := transport(ForecastRequest(location, api));
      r.ConnectionFailed? <==> ex.Unreachable? || (ex.Reply? && !IsErrorStatus(ex.status) && ex.body.NotJson?)
    ensures var ex := transport(ForecastRequest(location, api));
      r.LocationNotFound? <==> ex.Reply? && ex.status == 404
    ensures var ex := transport(ForecastRequest(location, api));
      r.HttpFailed? <==> ex.Reply? && IsErrorStatus(ex.status) && ex.status != 404
    ensures var ex := transport(ForecastRequest(location, api));
      r.Uncaught? <==> Decoded(ex) && NavigatePeriods(ex.body.envelope).Raises?
    ensures var ex := transport(ForecastRequest(location, api));
      r.NoForecastData? <==> Decoded(ex) && NavigatePeriods(ex.body.envelope) == Periods([])
    ensures var ex := transport(ForecastRequest(location, api));
      r.Fetched? <==>
        Decoded(ex) && NavigatePeriods(ex.body.envelope).Periods? && NavigatePeriods(ex.body.envelope).list != []
    ensures var ex := transport(ForecastRequest(location, api));
      r.ConnectionFailed? ==> r.cause == if ex.Unreachable? then ex.cause else ex.body.cause
    ensures var ex := transport(ForecastRequest(location, api));
      r.HttpFailed? ==> r.httpError == ex.httpError
    ensures var ex := transport(ForecastRequest(location, api));
      r.Uncaught? ==> r.error == NavigatePeriods(ex.body.envelope).error
    ensures r.LocationNotFound? ==> r.location == location
    ensures r.NoForecastData? || r.Fetched? ==> r.locationTitle == fmt.title(location)
    ensures var ex := transport(ForecastRequest(location, api));
      r.Fetched? ==> r.periods == NavigatePeriods(ex.body.envelope).list
    ensures r.Fetched? ==>
      |r.rows| == |r.periods| && forall k :: 0 <= k < |r.rows| ==> r.rows[k] == RowFor(r.periods[k], fmt)
  {
    var reply := transport(ForecastRequest(location, api));
    if reply.Unreachable? {
      return ConnectionFailed(reply.cause);
    }
    if IsErrorStatus(reply.status) {
      if reply.status == 404 {
        return LocationNotFound(location);
      }
      return HttpFailed(reply.httpError);
    }
    if reply.body.NotJson? {
      return ConnectionFailed(reply.body.cause);
    }
    var nav := NavigatePeriods(reply.body.envelope);
    if nav.Raises? {
      return Uncaught(nav.error);
    }
    var periods := nav.list;
    if periods == [] {
      return NoForecastData(fmt.title(location));
    }
    var rows := [];
    for i := 0 to |periods|
      invariant |rows| == i
      invariant forall k :: 0 <= k < i ==> rows[k] == RowFor(periods[k], fmt)
    {
      rows := rows + [RowFor(periods[i], fmt)];
    }
    return Fetched(periods, fmt.title(location), rows);
  }

  /** The outcomes `get_daily_forecast` reports as a message string. */
  predicate HasMessage(o: FetchOutcome) {
    o.LocationNotFound? || o.HttpFailed? || o.ConnectionFailed? || o.NoForecastData?
  }

  const NotFoundPrefix := "❌ Could not find location: '"
  const NoDataPrefix := "❌ Could not find forecast data for "
  const HttpPrefix := "❌ HTTP error occurred: "
  const ConnectPrefix := "❌ Error connecting to the API: "

  /** The message string returned on each error path. */
  function ErrorMessage(o: FetchOutcome): (msg: string)
    requires HasMessage(o)
    ensures o.LocationNotFound? ==> OccursAt(msg, NotFoundPrefix, 0) && OccursAt(msg, o.location, |NotFoundPrefix|)
    ensures o.HttpFailed? ==> OccursAt(msg, HttpPrefix, 0) && OccursAt(msg, o.httpError, |HttpPrefix|)
    ensures o.ConnectionFailed? ==> OccursAt(msg, ConnectPrefix, 0) && OccursAt(msg, o.cause, |ConnectPrefix|)
    ensures o.NoForecastData? ==> OccursAt(msg, NoDataPrefix, 0) && OccursAt(msg, o.locationTitle, |NoDataPrefix|)
  {
    match o
    case LocationNotFound(location) =>
      var msg := NotFoundPrefix + location + "'. Please check the format (e.g., 'city,state,country').";
      assert msg[..|NotFoundPrefix|] == NotFoundPrefix;
      assert msg[|NotFoundPrefix|..|NotFoundPrefix| + |location|] == location;
      msg
    case HttpFailed(e) =>
      var msg := HttpPrefix + e;
      assert msg[..|HttpPrefix|] == HttpPrefix && msg[|HttpPrefix|..] == e;
      msg
    case ConnectionFailed(cause) =>
      var msg := ConnectPrefix + cause;
      assert msg[..|ConnectPrefix|] == ConnectPrefix && msg[|ConnectPrefix|..] == cause;
      msg
    case NoForecastData(title) =>
      var msg := NoDataPrefix + title + ".";
      assert msg[..|NoDataPrefix|] == NoDataPrefix;
      assert msg[|NoDataPrefix|..|NoDataPrefix| + |title|] == title;
      msg
  }

  /** Two outcomes of different kinds. */
  predicate DifferentKinds(a: FetchOutcome, b: FetchOutcome) {
    a.LocationNotFound? != b.LocationNotFound? || a.HttpFailed? != b.HttpFailed?
    || a.ConnectionFailed? != b.ConnectionFailed? || a.NoForecastData? != b.NoForecastData?
  }

  /** The four error messages can be told apart whatever their payloads. */
  lemma ErrorMessagesDistinct(a: FetchOutcome, b: FetchOutcome)
    requires HasMessage(a) && HasMessage(b) && DifferentKinds(a, b)
    ensures ErrorMessage(a) != ErrorMessage(b)
  {
    MessageMarks(a);
    MessageMarks(b);
  }

  /** Characters 2 and 17 of a message, fixed by its prefix, tell its kind. */
  lemma MessageMarks(o: FetchOutcome)
    requires HasMessage(o)
    ensures var m := ErrorMessage(o);
      |m| > 17
      && (o.LocationNotFound? <==> m[2] == 'C' && m[17] == 'l')
      && (o.HttpFailed? <==> m[2] == 'H')
      && (o.ConnectionFailed? <==> m[2] == 'E')
      && (o.NoForecastData? <==> m[2] == 'C' && m[17] == 'f')
  {
    var m := ErrorMessage(o);
    match o
    case LocationNotFound(_) => assert m[..|NotFoundPrefix|] == NotFoundPrefix;
    case HttpFailed(_) => assert m[..|HttpPrefix|] == HttpPrefix;
    case ConnectionFailed(_) => assert m[..|ConnectPrefix|] == ConnectPrefix;
    case NoForecastData(_) => assert m[..|NoDataPrefix|] == NoDataPrefix;
  }
}
