/** The adapter plugged into the tool, as the command line wires them: what the
    agent runtime sees end to end. */
module Composition {
  import opened Wrappers
  import opened PyJson
  import opened Ports
  import opened TavilyAdapter
  import opened TavilyAdapterProofs
  import opened Tools

  /** A provider that answers with the payload for `rs` reaches the agent as
      one record per result, in order, with absent content still absent. */
  lemma ToolOverAdapter(adapter: Adapter, client: Client, query: string, rs: seq<WebSearchResult>)
    requires client(adapter.apiKey, Request(query, DefaultMaxResults)) == Returned(Payload(rs))
    ensures var out := BuildTools(AsPort(adapter, client))[0].invoke(ToolArgs(query, None));
            out.Success? && |out.value| == |rs| &&
            forall i :: 0 <= i < |rs| ==> Unflatten(out.value[i]) == Some(rs[i])
  {
    NormalisePayload(rs);
    assert AsPort(adapter, client)(query, DefaultMaxResults) == Success(rs);
  }

  /** A provider exception reaches the agent as the adapter's `RuntimeError`
      carrying that exception as its cause. */
  lemma ToolSurfacesWrappedError(adapter: Adapter, client: Client, query: string, n: int, e: UpstreamException)
    requires client(adapter.apiKey, Request(query, n)) == Raised(e)
    ensures BuildTools(AsPort(adapter, client))[0].invoke(ToolArgs(query, Some(n))) == Failure(RuntimeError(MessageFor(e.category), Some(e)))
  {
    assert AsPort(adapter, client)(query, n) == Failure(Wrap(e));
  }
}
