/** The tool the agent runtime calls: `web_search`, which forwards its arguments
    to the search port and flattens each result into a plain record. */
module Tools {
  import opened Wrappers
  import opened PyJson
  import opened Ports

  /** A flat record `{"title": ..., "url": ..., "content": ...}` as the agent
      runtime receives it; absent content is `null`. */
  type Record = map<string, Json>

  /** The record for one result. */
  function Flatten(r: WebSearchResult): (rec: Record)
    ensures rec.Keys == {"title", "url", "content"}
    ensures rec["content"] == JNull <==> r.content.None?
    ensures Unflatten(rec) == Some(r)
  {
    map["title" := JStr(r.title),
        "url" := JStr(r.url),
        "content" := match r.content case None => JNull case Some(c) => JStr(c)]
  }

  /** The result a record was flattened from, or `None` for a record without
      that shape. */
  function Unflatten(rec: Record): Option<WebSearchResult> {
    if && "title" in rec && rec["title"].JStr?
       && "url" in rec && rec["url"].JStr?
       && "content" in rec && (rec["content"].JNull? || rec["content"].JStr?)
    then
      var content := if rec["content"].JNull? then None else Some(rec["content"].s);
      Some(WebSearchResult(rec["title"].s, rec["url"].s, content))
    else None
  }

  /** `web_search_tool(query, max_results)`: the port's results, one record per
      result in the same order; a failure of the port is not caught and comes
      out unchanged. */
  function WebSearchTool<E>(port: Port<E>, query: string, maxResults: int := DefaultMaxResults): (r: Result<seq<Record>, E>)
    ensures r.Failure? <==> port(query, maxResults).Failure?
    ensures r.Failure? ==> r.error == port(query, maxResults).error
    ensures r.Success? ==>
              |r.value| == |port(query, maxResults).value| &&
              forall i :: 0 <= i < |r.value| ==>
                r.value[i].Keys == {"title", "url", "content"} &&
                Unflatten(r.value[i]) == Some(port(query, maxResults).value[i])
  {
    match port(query, maxResults)
    case Failure(e) => Failure(e)
    case Success(results) => Success(seq(|results|, i requires 0 <= i < |results| => Flatten(results[i])))
  }

  /** The arguments of one tool call; `maxResults` is `None` when the caller
      leaves it out. */
  datatype ToolArgs = ToolArgs(query: string, maxResults: Option<int>)

  /** A named tool as registered with the agent runtime. */
  datatype Tool<E> = Tool(name: string, invoke: ToolArgs -> Result<seq<Record>, E>)

  /** `build_tools(web_search=port)`: the single `web_search` tool, which
      passes the query and count to `port` unchanged and asks for five results
      when no count is given. */
  function BuildTools<E>(port: Port<E>): (tools: seq<Tool<E>>)
    ensures |tools| == 1 && tools[0].name == "web_search"
    ensures forall q, n :: tools[0].invoke(ToolArgs(q, Some(n))) == WebSearchTool(port, q, n)
    ensures forall q :: tools[0].invoke(ToolArgs(q, None)) == WebSearchTool(port, q, 5)
  {
    [Tool("web_search", (args: ToolArgs) => WebSearchTool(port, args.query, args.maxResults.GetOr(DefaultMaxResults)))]
  }

  /** No results is an empty list and not an error. */
  lemma EmptyResultsAreNotFailure<E>(port: Port<E>, query: string, maxResults: int)
    requires port(query, maxResults) == Success([])
    ensures WebSearchTool(port, query, maxResults) == Success([])
  {
  }
}
