/** The application-layer contract for web search: the normalised result record
    and the capability any search provider must offer. */
module Ports {
  import opened Wrappers

  /** How many results a search asks for when the caller does not say. */
  const DefaultMaxResults: int := 5

  /** One normalised search hit: an immutable value compared field by field.
      `title` and `url` are required; `content` is optional and absent unless
      given, which keeps "unknown" apart from "empty". */
  datatype WebSearchResult = WebSearchResult(title: string, url: string, content: Option<string> := None)

  /** The search capability: a query and a result-count hint in, an ordered list
      of results out, or the error `E` the implementation raises. */
  type Port<!E> = (string, int) -> Result<seq<WebSearchResult>, E>

  /** `port.search(query)` or `port.search(query, max_results=n)`. */
  function Search<E>(port: Port<E>, query: string, maxResults: int := DefaultMaxResults): Result<seq<WebSearchResult>, E> {
    port(query, maxResults)
  }

  /** Results are plain values: equal exactly when all three fields agree, and a
      result built without content has none. */
  lemma ResultIsValue(a: WebSearchResult, b: WebSearchResult, title: string, url: string)
    ensures a == b <==> (a.title == b.title && a.url == b.url && a.content == b.content)
    ensures WebSearchResult(title, url).content == None
    ensures WebSearchResult(title, url) == WebSearchResult(title, url, None)
  {
  }

  /** Leaving `max_results` out asks the port for five results. */
  lemma SearchDefaultsToFive<E>(port: Port<E>, query: string)
    ensures Search(port, query) == port(query, 5)
  {
  }
}
