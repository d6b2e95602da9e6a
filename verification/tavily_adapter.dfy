/** The adapter that implements the search port on top of the Tavily client: key
    resolution at construction, the fixed request it issues, the translation of
    the client's exceptions, and the normalisation of the returned payload. */
module TavilyAdapter {
  import opened Wrappers
  import opened PyJson
  import opened Ports

  /** The exception classes the Tavily client raises; anything else it raises is
      `OtherException`, named by its class. */
  datatype UpstreamCategory =
    | MissingApiKey
    | InvalidApiKey
    | UsageLimitExceeded
    | BadRequest
    | Forbidden
    | Timeout
    | OtherException(className: string)

  /** An exception raised by the client, with its own message. */
  datatype UpstreamException = UpstreamException(category: UpstreamCategory, detail: string)

  /** What one call of the client does: return a payload, or raise. */
  datatype Upstream = Returned(payload: Json) | Raised(exception: UpstreamException)

  /** Search depth offered by the provider. */
  datatype SearchDepth = Basic | Advanced

  /** The provider options the adapter sets on every request. */
  datatype RequestOptions = RequestOptions(depth: SearchDepth, includeAnswer: bool, includeRawContent: bool, includeImages: bool)

  /** Basic depth, no synthesised answer, no raw page content, no images. */
  const FixedOptions := RequestOptions(Basic, false, false, false)

  /** The arguments of one `client.search(...)` call. */
  datatype SearchRequest = SearchRequest(query: string, maxResults: int, options: RequestOptions)

  /** The provider's client, as the outcome it produces for an API key and a
      request; the network call itself is outside the model. */
  type Client = (string, SearchRequest) -> Upstream

  /** The fixed texts of the `RuntimeError`s the adapter raises (the wording
      itself is not modelled, only which text is chosen). */
  datatype Message =
    | KeyNotConfigured   // construction found no key
    | KeyMissing
    | KeyInvalid
    | QuotaExceeded
    | InvalidRequest
    | AccessDenied
    | UpstreamTimeout
    | Unexpected

  /** What the adapter raises: a `RuntimeError` with its text and, for errors
      translated from the client, the client's exception as its cause; or the
      `TypeError` of iterating a `results` value that is not iterable. */
  datatype Error =
    | RuntimeError(message: Message, cause: Option<UpstreamException>)
    | NotIterable(results: Json)

  /** A constructed adapter: the client it holds is built from this key once. */
  datatype Adapter = Adapter(apiKey: string)

  /** Python's truth value of an optional string. */
  predicate Given(s: Option<string>) {
    s.Some? && |s.value| > 0
  }

  /** `TavilyWebSearchAdapter(api_key)` with `env` the value of the
      `TAVILY_API_KEY` environment variable: a non-empty explicit key wins, an
      empty or absent one falls back to the environment, and construction
      fails when neither yields a non-empty key. */
  function New(apiKey: Option<string>, env: Option<string>): (r: Result<Adapter, Error>)
    ensures r.Success? <==> Given(apiKey) || Given(env)
    ensures r.Success? ==> |r.value.apiKey| > 0
    ensures Given(apiKey) ==> r == Success(Adapter(apiKey.value))
    ensures !Given(apiKey) && Given(env) ==> r == Success(Adapter(env.value))
    ensures r.Failure? ==> r.error == RuntimeError(KeyNotConfigured, None)
  {
    var resolved := if Given(apiKey) then apiKey else env;
    if Given(resolved) then Success(Adapter(resolved.value))
    else Failure(RuntimeError(KeyNotConfigured, None))
  }

  /** The request issued for `search(query, max_results=maxResults)`. */
  function Request(query: string, maxResults: int): SearchRequest {
    SearchRequest(query, maxResults, FixedOptions)
  }

  /** The text chosen for each class of client exception. */
  function MessageFor(c: UpstreamCategory): Message {
    match c
    case MissingApiKey => KeyMissing
    case InvalidApiKey => KeyInvalid
    case UsageLimitExceeded => QuotaExceeded
    case BadRequest => InvalidRequest
    case Forbidden => AccessDenied
    case Timeout => UpstreamTimeout
    case OtherException(_) => Unexpected
  }

  /** The class of client exception a text was chosen for; `None` for the
      generic text and for the construction-time text. */
  function CategoryOf(m: Message): Option<UpstreamCategory> {
    match m
    case KeyMissing => Some(MissingApiKey)
    case KeyInvalid => Some(InvalidApiKey)
    case QuotaExceeded => Some(UsageLimitExceeded)
    case InvalidRequest => Some(BadRequest)
    case AccessDenied => Some(Forbidden)
    case UpstreamTimeout => Some(Timeout)
    case _ => None
  }

  /** `raise RuntimeError(...) from exc`: every client exception becomes a
      `RuntimeError` whose cause is that exception. */
  function Wrap(e: UpstreamException): (r: Error)
    ensures r.RuntimeError? && r.cause == Some(e)
    ensures r.message != KeyNotConfigured
    ensures r.message == Unexpected <==> e.category.OtherException?
  {
    RuntimeError(MessageFor(e.category), Some(e))
  }

  /** `str(item.get(key, "") or "")`: the text of a required field. */
  function TextField(fields: seq<(string, Json)>, key: string): (s: string)
    ensures s == "" <==> (Get(fields, key).None? || !Truthy(Get(fields, key).value))
    ensures Get(fields, key).Some? && Get(fields, key).value.JStr? ==> s == Get(fields, key).value.s
    ensures Get(fields, key).Some? && Truthy(Get(fields, key).value) ==> s == ToStr(Get(fields, key).value)
  {
    var v := Get(fields, key).GetOr(JStr(""));
    ToStr(if Truthy(v) then v else JStr(""))
  }

  /** `None if item.get("content") is None else str(item.get("content"))`. */
  function ContentField(fields: seq<(string, Json)>): (c: Option<string>)
    ensures c.None? <==> (Get(fields, "content").None? || Get(fields, "content").value.JNull?)
    ensures Get(fields, "content").Some? && Get(fields, "content").value.JStr? ==>
              c == Some(Get(fields, "content").value.s)
    ensures c.Some? ==> c.value == ToStr(Get(fields, "content").value)
  {
    match Get(fields, "content")
    case None => None
    case Some(JNull) => None
    case Some(v) => Some(ToStr(v))
  }

  /** The result built from one dict item of `results`. */
  function FromItem(fields: seq<(string, Json)>): WebSearchResult {
    WebSearchResult(TextField(fields, "title"), TextField(fields, "url"), ContentField(fields))
  }

  /** The loop over the items of `results`: every dict item becomes a result,
      in order; every other item is skipped. */
  function Normalised(items: seq<Json>): (r: seq<WebSearchResult>)
    ensures |r| <= |items|
  {
    if |items| == 0 then []
    else
      var head := match items[0] case JObj(fs) => [FromItem(fs)] case _ => [];
      head + Normalised(items[1..])
  }

  /** The payload a successful client call returned, turned into results. A
      payload that is not a dict, or has no `results`, gives no results; a
      `results` value that is `None`, a boolean or a number makes the loop
      raise `TypeError`. */
  function Normalise(response: Json): (r: Result<seq<WebSearchResult>, Error>)
    ensures !response.JObj? ==> r == Success([])
    ensures response.JObj? && Get(response.fields, "results").None? ==> r == Success([])
    ensures r.Failure? <==>
              response.JObj? && Get(response.fields, "results").Some? &&
              Iterate(Get(response.fields, "results").value).None?
    ensures r.Failure? ==> r.error == NotIterable(Get(response.fields, "results").value)
    ensures response.JObj? && Get(response.fields, "results").Some? && Get(response.fields, "results").value.JArr? ==>
              r == Success(Normalised(Get(response.fields, "results").value.items))
  {
    var results := if response.JObj? then Get(response.fields, "results").GetOr(JArr([])) else JArr([]);
    match Iterate(results)
    case None => Failure(NotIterable(results))
    case Some(items) => Success(Normalised(items))
  }

  /** `adapter.search(query, max_results=maxResults)` against `client`. Every
      `RuntimeError` it raises wraps the exception the client raised; the only
      other failure is the `TypeError` of a non-iterable `results`. */
  function Search(adapter: Adapter, client: Client, query: string, maxResults: int := DefaultMaxResults): (r: Result<seq<WebSearchResult>, Error>)
    ensures var outcome := client(adapter.apiKey, Request(query, maxResults));
            (r.Failure? && r.error.RuntimeError?) <==> outcome.Raised?
    ensures var outcome := client(adapter.apiKey, Request(query, maxResults));
            outcome.Raised? ==>
              r.error.cause == Some(outcome.exception) && r.error.message == MessageFor(outcome.exception.category)
    ensures var outcome := client(adapter.apiKey, Request(query, maxResults));
            r.Failure? && r.error.NotIterable? ==>
              outcome.Returned? && outcome.payload.JObj? && Get(outcome.payload.fields, "results") == Some(r.error.results)
    ensures var outcome := client(adapter.apiKey, Request(query, maxResults));
            outcome.Returned? ==> r == Normalise(outcome.payload)
  {
    match client(adapter.apiKey, Request(query, maxResults))
    case Raised(e) => Failure(Wrap(e))
    case Returned(payload) => Normalise(payload)
  }

  /** The adapter seen through the search port. */
  function AsPort(adapter: Adapter, client: Client): Port<Error> {
    (query: string, maxResults: int) => Search(adapter, client, query, maxResults)
  }
}
