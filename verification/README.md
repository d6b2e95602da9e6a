# Web-search boundary of the deep agent, modelled in Dafny

The deep agent lets a language model call one tool of its own, `web_search`. Behind the
tool sits a port and adapter boundary:

- **Ports** (`ports.dfy`). `WebSearchResult` is an immutable record with fields `title`,
  `url` and an optional `content`. A `Port` is the search capability: a query and a
  result-count hint go in; an ordered list of results or an error comes out. The count
  defaults to 5.
- **TavilyAdapter** (`tavily_adapter.dfy`, with lemmas in `tavily_adapter_proofs.dfy`).
  This is the Tavily implementation of the port. It covers four things:
  - How the API key is resolved at construction.
  - The fixed request sent for each search.
  - How each client exception becomes a `RuntimeError` whose cause is the original.
  - How the dynamically typed payload becomes a list of results.
- **Tools** (`tools.dfy`). `build_tools` yields the single `web_search` tool. It forwards
  its arguments to the port and flattens every result into a `{title, url, content}`
  record.
- **PyJson** (`pyjson.dfy`). This is the payload as Python holds it after decoding. It
  gives the parts of Python's semantics the adapter relies on: truthiness, `str()`,
  `dict.get`, and what a `for` loop yields over each kind of value.
- **Composition** (`composition.dfy`). The adapter plugged into the tool, as the command
  line wires them.
- **Wrappers** (`wrappers.dfy`). `Option` stands for Python's `X | None`. `Result` is a
  return value or a raised exception.

The network call is a parameter. A `Client` maps an API key and a `SearchRequest` to an
`Upstream` outcome: either `Returned(payload)` or `Raised(exception)`. The environment
variable `TAVILY_API_KEY` is passed as an `Option<string>`. A search reads nothing else,
so equal client outcomes give equal results (`SearchDependsOnlyOnUpstream`).

**`search` is lenient about payload shape, with one exception.** A payload that is not a
dict, or a dict without `results`, gives an empty list. But the loop over `results` at
`tavily_adapter.py:67` sits outside the `try` block. So a `results` value that is `null`,
a boolean or a number makes the loop raise `TypeError`. The model returns
`Failure(NotIterable(results))` for that case. A `results` value that is a string or an
object is still iterable. Its items are strings, which the loop skips, so the result is
an empty list (`NoObjectsNoResults`).

## Model

| member | source | states |
|---|---|---|
| `TavilyAdapter.New` | deep_agent/infrastructure/web_search/tavily_adapter.py:27-32 | Construction succeeds exactly when the explicit key or the environment value is a non-empty string. A non-empty explicit key wins; an empty or absent one falls back to the environment. The held key is never empty. Otherwise it fails with the key-not-configured `RuntimeError`, which has no cause. |
| `TavilyAdapterProofs.ConstructionErrorIsDistinct` | deep_agent/infrastructure/web_search/tavily_adapter.py:28-63 | No failure of a search equals the construction failure, so a configuration error cannot be confused with a search-time error. |
| `TavilyAdapterProofs.RequestForwardsArguments` | deep_agent/infrastructure/web_search/tavily_adapter.py:36-43 | The request carries the query and `max_results` unchanged. Its options are always basic depth, no answer, no raw content and no images, whatever the arguments. |
| `TavilyAdapter.Wrap` | deep_agent/infrastructure/web_search/tavily_adapter.py:44-63 | Every client exception becomes a `RuntimeError` whose cause is that exception. Its text is never the construction text. It gets the generic text exactly when the exception is not one of the six known classes. |
| `TavilyAdapterProofs.ClassificationInvertible` | deep_agent/infrastructure/web_search/tavily_adapter.py:44-63 | Each of the six known exception classes gets its own text, and the class can be recovered from that text. Every other exception gets the one generic text. |
| `TavilyAdapter.Search` | deep_agent/infrastructure/web_search/tavily_adapter.py:34-81 | A search raises a `RuntimeError` exactly when the client raised. That error carries the client's exception as its cause and the text chosen for its class. The only other failure is the `TypeError` from a `results` value the client returned that cannot be iterated. A returned payload gives exactly its normalisation. |
| `TavilyAdapterProofs.SearchDependsOnlyOnUpstream` | deep_agent/infrastructure/web_search/tavily_adapter.py:32-81 | The adapter keeps no state between calls. Two searches whose client calls give the same outcome return the same result. |
| `TavilyAdapter.Normalise` | deep_agent/infrastructure/web_search/tavily_adapter.py:65-69 | A payload that is not a dict gives `[]` with no error. So does a dict without `results`. The normalisation fails exactly when `results` is present but not iterable, and the error carries that value. A list `results` gives the normalisation of its items. |
| `TavilyAdapterProofs.NoObjectsNoResults` | deep_agent/infrastructure/web_search/tavily_adapter.py:65-69 | `results` gives `[]` with no error when it is a string, a dict, or a list with no dict in it. |
| `TavilyAdapter.TextField` | deep_agent/infrastructure/web_search/tavily_adapter.py:72-73 | A title or url is `""` exactly when its key is missing or its value is falsy. Any truthy value gives its `str()`, so a string value comes through unchanged. |
| `TavilyAdapter.ContentField` | deep_agent/infrastructure/web_search/tavily_adapter.py:74-78 | Content is absent exactly when its key is missing or its value is `null`. Present content is always the value's `str()`, so a string value, even an empty one, comes through unchanged. |
| `TavilyAdapterProofs.FalsyFieldRules` | deep_agent/infrastructure/web_search/tavily_adapter.py:72-78 | The two field rules part ways on falsy values other than `null`. An empty string, `0`, `false`, `[]` or `{}` gives an empty title but present content equal to the value's `str()`. |
| `TavilyAdapter.Normalised` | deep_agent/infrastructure/web_search/tavily_adapter.py:66-81 | The loop never produces more results than there are items. |
| `TavilyAdapterProofs.NormalisedLength` | deep_agent/infrastructure/web_search/tavily_adapter.py:66-81 | The number of results equals the number of dict items, which is at most the number of items. It equals the number of items exactly when every item is a dict. It is zero exactly when none is. |
| `TavilyAdapterProofs.NormalisedAppend` | deep_agent/infrastructure/web_search/tavily_adapter.py:66-81 | Normalising a concatenation gives the concatenation of the parts, so nothing carries over from one item to the next. |
| `TavilyAdapterProofs.NormalisedKeepsEveryObject` | deep_agent/infrastructure/web_search/tavily_adapter.py:66-81 | Every dict item reaches the output. It lands at the position equal to the number of dict items before it, as the result built from its fields. |
| `TavilyAdapterProofs.NormalisedOnlyFromObjects` | deep_agent/infrastructure/web_search/tavily_adapter.py:66-81 | Every output position comes from a dict item, namely the one with exactly that many dict items before it. |
| `TavilyAdapterProofs.ObjectPositionsIncrease` | deep_agent/infrastructure/web_search/tavily_adapter.py:66-81 | A later dict item lands at a strictly later output position, so relative order is kept. |
| `TavilyAdapterProofs.FromItemEncode` | deep_agent/infrastructure/web_search/tavily_adapter.py:70-79 | An item whose title, url and content are strings, or whose content is `null`, comes back as exactly the result it encodes. |
| `TavilyAdapterProofs.NormalisePayload` | deep_agent/infrastructure/web_search/tavily_adapter.py:65-81 | Round trip: N results sent as a conforming `results` list come back as the same N results in the same order. Content that was absent stays absent. |
| `TavilyAdapterProofs.MixedExample` | deep_agent/infrastructure/web_search/tavily_adapter.py:65-81 | Two conforming hits followed by a bare string give the two hits; the second has no content. |
| `PyJson.ToStr` | deep_agent/infrastructure/web_search/tavily_adapter.py:72-77 | Python's `str()` returns a string unchanged. It gives the empty text only for the empty string. |
| `PyJson.Iterate` | deep_agent/infrastructure/web_search/tavily_adapter.py:67 | Iteration fails exactly for `None`, booleans and numbers. A list yields its elements. A string or dict yields only strings. |
| `PyJson.Get` | deep_agent/infrastructure/web_search/tavily_adapter.py:65 | `dict.get` finds a value exactly when some entry has the key, and the value found is stored under that key. |
| `Ports.ResultIsValue` | deep_agent/application/agent/ports.py:13-19 | Two results are equal exactly when all three fields are. A result built without content has none. |
| `Ports.SearchDefaultsToFive` | deep_agent/application/agent/ports.py:28 | Calling the port without `max_results` asks for five results. |
| `Tools.Flatten` | deep_agent/application/agent/tools.py:35-37 | A record has exactly the keys `title`, `url` and `content`. Its content is `null` exactly when the result has none. Reading the record back gives the result unchanged. |
| `Tools.WebSearchTool` | deep_agent/application/agent/tools.py:23-38 | The tool fails exactly when the port fails, with the port's error unchanged. On success it returns one record per port result, in the same order. Each record has exactly the three keys and reads back as the result at that position. |
| `Tools.EmptyResultsAreNotFailure` | deep_agent/application/agent/tools.py:34-38 | An empty port result gives an empty list, not an error. |
| `Tools.BuildTools` | deep_agent/application/agent/tools.py:15-40 | Exactly one tool is built, named `web_search`. It passes the query and the count to the port unchanged. It asks for five results when no count is given. |
| `Composition.ToolOverAdapter` | deep_agent/presentation/cli.py:104-107 | When the provider answers with the payload for some results, the agent receives one record per result, in order, each reading back as that result. |
| `Composition.ToolSurfacesWrappedError` | deep_agent/presentation/cli.py:104-107 | A provider exception reaches the agent as the adapter's `RuntimeError`, with that exception as its cause. |

## Left out

- The network call of `TavilyClient` and the SDK's exception classes. The client is a function parameter, and its exceptions are a category datatype with one case per class the adapter catches. Any other exception is a seventh case named by its class.
- Exceptions that are not `Exception` subclasses, such as `KeyboardInterrupt`. The `except Exception` clause does not catch them, so they would escape unwrapped. The model's client cannot raise them.
- `os.getenv`. The value of `TAVILY_API_KEY` is a parameter of `TavilyAdapter.New`.
- The wording of the Portuguese error messages. Each one is a distinct constant of `Message`.
- Floating-point numbers in payloads. `Json` has integers only. Floats would matter in two places the model does not cover. A float title, url or content reaches the output as Python's `str()` of it, for example `"1.5"` or `"1e+16"`. A float `results` value makes the loop raise `TypeError`, as an integer one does.
- Tools.Flatten: a record is a `map`, so it does not keep the key order `title`, `url`, `content` of the Python dict. Only the keys and their values are modelled.
- PyJson.ToStr: for lists and dicts it follows Python's `repr`, and string escaping covers only the backslash, the quote, tab, newline, carriage return and the Latin-1 non-printable characters. Python escapes other non-printable Unicode characters too.
- JSON objects are entry sequences in insertion order, and lookups take the first entry with the key. Python dicts never hold a key twice, so this matters only for inputs no dict can produce.
- The langchain `@tool` decorator's schema and docstring handling. The tool is modelled as its name plus the function it invokes.
- `deep_agent/presentation/cli.py` beyond the wiring of adapter and tool. This covers argument parsing, colours, the read-eval-print loop and the fallback that continues without the tool when construction fails. All of it is I/O around external agent objects.
- `deep_agent/application/agent/graph.py`, `graph_builder.py`, `state.py` and `deep_agent/__main__.py`. They only pass through to the external agent library, hold a stub, a typed dict or an entry point.
