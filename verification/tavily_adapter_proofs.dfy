/** Properties of the adapter that relate several calls or quantify over all
    inputs: which items survive normalisation and where they land, the round
    trip from results through a payload and back, and the error taxonomy. */
module TavilyAdapterProofs {
  import opened Wrappers
  import opened PyJson
  import opened Ports
  import opened TavilyAdapter

  /** The number of dict items in `items`. */
  function CountObjects(items: seq<Json>): nat {
    if |items| == 0 then 0
    else (if items[0].JObj? then 1 else 0) + CountObjects(items[1..])
  }

  /** Normalising a concatenation normalises each part: the loop carries no
      state from one item to the next. */
  lemma {:induction false} NormalisedAppend(a: seq<Json>, b: seq<Json>)
    ensures Normalised(a + b) == Normalised(a) + Normalised(b)
    decreases |a|
  {
    if |a| == 0 {
      assert a + b == b;
    } else {
      assert (a + b)[0] == a[0];
      assert (a + b)[1..] == a[1..] + b;
      NormalisedAppend(a[1..], b);
    }
  }

  /** One result per dict item, so never more results than items, and exactly
      as many only when every item is a dict. */
  lemma {:induction false} NormalisedLength(items: seq<Json>)
    ensures |Normalised(items)| == CountObjects(items) <= |items|
    ensures CountObjects(items) == |items| <==> forall k :: 0 <= k < |items| ==> items[k].JObj?
    ensures CountObjects(items) == 0 <==> forall k :: 0 <= k < |items| ==> !items[k].JObj?
  {
    if |items| > 0 {
      NormalisedLength(items[1..]);
      assert forall k :: 0 < k < |items| ==> items[k] == items[1..][k - 1];
    }
  }

  /** Counting the dict items before position `i` steps past the first item. */
  lemma CountPrefixStep(items: seq<Json>, i: int)
    requires 0 < i <= |items|
    ensures CountObjects(items[..i]) == (if items[0].JObj? then 1 else 0) + CountObjects(items[1..][..i - 1])
  {
    assert items[..i][0] == items[0];
    assert items[..i][1..] == items[1..][..i - 1];
  }

  /** Every dict item of `items` reaches the output, at the position given by
      the number of dict items before it. */
  lemma {:induction false} NormalisedKeepsEveryObject(items: seq<Json>, i: int)
    requires 0 <= i < |items| && items[i].JObj?
    ensures CountObjects(items[..i]) < |Normalised(items)|
    ensures Normalised(items)[CountObjects(items[..i])] == FromItem(items[i].fields)
    decreases |items|
  {
    NormalisedLength(items);
    if i == 0 {
      assert items[..0] == [];
    } else {
      CountPrefixStep(items, i);
      NormalisedKeepsEveryObject(items[1..], i - 1);
      NormalisedLength(items[1..]);
    }
  }

  /** Every output comes from a dict item, the one with that many dict items
      before it. */
  lemma {:induction false} NormalisedOnlyFromObjects(items: seq<Json>, k: int)
    requires 0 <= k < |Normalised(items)|
    ensures exists i :: 0 <= i < |items| && items[i].JObj? && CountObjects(items[..i]) == k
    decreases |items|
  {
    if items[0].JObj? && k == 0 {
      assert items[..0] == [];
      assert items[0].JObj? && CountObjects(items[..0]) == 0;
    } else {
      var h := if items[0].JObj? then 1 else 0;
      NormalisedOnlyFromObjects(items[1..], k - h);
      var j :| 0 <= j < |items[1..]| && items[1..][j].JObj? && CountObjects(items[1..][..j]) == k - h;
      CountPrefixStep(items, j + 1);
      assert items[j + 1].JObj? && CountObjects(items[..j + 1]) == k;
    }
  }

  /** Dict items keep their relative order: a later dict item lands at a later
      output position. */
  lemma {:induction false} ObjectPositionsIncrease(items: seq<Json>, i: int, j: int)
    requires 0 <= i < j <= |items| && items[i].JObj?
    ensures CountObjects(items[..i]) < CountObjects(items[..j])
  {
    assert items[..j] == items[..i] + items[i..j];
    CountAppend(items[..i], items[i..j]);
    assert items[i..j][0] == items[i];
  }

  lemma {:induction false} CountAppend(a: seq<Json>, b: seq<Json>)
    ensures CountObjects(a + b) == CountObjects(a) + CountObjects(b)
    decreases |a|
  {
    if |a| == 0 {
      assert a + b == b;
    } else {
      assert (a + b)[0] == a[0];
      assert (a + b)[1..] == a[1..] + b;
      CountAppend(a[1..], b);
    }
  }

  /** A `results` list with no dict in it, or a `results` string or dict (whose
      iteration yields only strings), gives no results and no error. */
  lemma NoObjectsNoResults(response: Json)
    requires response.JObj? && Get(response.fields, "results").Some?
    requires var results := Get(response.fields, "results").value;
             results.JStr? || results.JObj? ||
             (results.JArr? && forall k :: 0 <= k < |results.items| ==> !results.items[k].JObj?)
    ensures Normalise(response) == Success([])
  {
    var items := Iterate(Get(response.fields, "results").value).value;
    NormalisedLength(items);
  }

  /** The payload a provider would send for `rs`: each result an object with
      its three fields, absent content sent as `null`. */
  function Encode(r: WebSearchResult): Json {
    JObj([("title", JStr(r.title)), ("url", JStr(r.url)),
          ("content", match r.content case None => JNull case Some(c) => JStr(c))])
  }

  function Payload(rs: seq<WebSearchResult>): Json {
    JObj([("results", JArr(seq(|rs|, k requires 0 <= k < |rs| => Encode(rs[k]))))])
  }

  /** A well-formed item comes back as the result it encodes: empty texts stay
      empty and `null` content stays absent. */
  lemma FromItemEncode(r: WebSearchResult)
    ensures Encode(r).JObj? && FromItem(Encode(r).fields) == r
  {
    var fs := Encode(r).fields;
    assert Get(fs, "title") == Some(JStr(r.title));
    assert Get(fs, "url") == Some(JStr(r.url));
    assert Get(fs, "content") == Some(fs[2].1);
  }

  lemma {:induction false} NormalisedEncoded(rs: seq<WebSearchResult>)
    ensures Normalised(seq(|rs|, k requires 0 <= k < |rs| => Encode(rs[k]))) == rs
    decreases |rs|
  {
    var items := seq(|rs|, k requires 0 <= k < |rs| => Encode(rs[k]));
    if |rs| > 0 {
      FromItemEncode(rs[0]);
      assert items[1..] == seq(|rs[1..]|, k requires 0 <= k < |rs[1..]| => Encode(rs[1..][k]));
      NormalisedEncoded(rs[1..]);
      assert rs == [rs[0]] + rs[1..];
    }
  }

  /** Round trip: N results sent as a conforming payload come back as the same
      N results in the same order. */
  lemma NormalisePayload(rs: seq<WebSearchResult>)
    ensures Normalise(Payload(rs)) == Success(rs)
  {
    NormalisedEncoded(rs);
  }

  /** A `results` list holding hit A (with content "x"), hit B (with `null`
      content) and the bare string "not-a-dict" gives the two hits in order,
      the second without content; the string is skipped. */
  lemma MixedExample()
    ensures Normalise(JObj([("results", JArr([
              JObj([("title", JStr("A")), ("url", JStr("http://a")), ("content", JStr("x"))]),
              JObj([("title", JStr("B")), ("url", JStr("http://b")), ("content", JNull)]),
              JStr("not-a-dict")]))]))
            == Success([WebSearchResult("A", "http://a", Some("x")), WebSearchResult("B", "http://b")])
  {
    var rs := [WebSearchResult("A", "http://a", Some("x")), WebSearchResult("B", "http://b")];
    var hits := seq(|rs|, k requires 0 <= k < |rs| => Encode(rs[k]));
    assert hits == [Encode(rs[0]), Encode(rs[1])];
    NormalisedEncoded(rs);
    NormalisedAppend(hits, [JStr("not-a-dict")]);
    assert Normalised([JStr("not-a-dict")]) == [];
    assert hits + [JStr("not-a-dict")] == [Encode(rs[0]), Encode(rs[1]), JStr("not-a-dict")];
  }

  /** The two field rules part ways on falsy values other than `None`: an
      empty string, zero, `False`, `[]` or `{}` gives an empty title but a
      present content. */
  lemma FalsyFieldRules(v: Json)
    requires !Truthy(v) && !v.JNull?
    ensures TextField([("title", v)], "title") == ""
    ensures ContentField([("content", v)]) == Some(ToStr(v))
  {
  }

  /** Each of the six known client exceptions has its own text, from which it
      can be told back; every other exception gets the one generic text. */
  lemma ClassificationInvertible(e: UpstreamException)
    ensures CategoryOf(Wrap(e).message) == (if e.category.OtherException? then None else Some(e.category))
  {
  }

  /** No search-time failure can be mistaken for the construction failure. */
  lemma ConstructionErrorIsDistinct(adapter: Adapter, client: Client, query: string, maxResults: int, apiKey: Option<string>, env: Option<string>)
    requires New(apiKey, env).Failure?
    ensures TavilyAdapter.Search(adapter, client, query, maxResults) != Failure(New(apiKey, env).error)
  {
  }

  /** The adapter keeps no state between calls: two searches whose client calls
      return the same outcome give the same result. */
  lemma SearchDependsOnlyOnUpstream(adapter: Adapter, c1: Client, c2: Client, query: string, maxResults: int)
    requires c1(adapter.apiKey, Request(query, maxResults)) == c2(adapter.apiKey, Request(query, maxResults))
    ensures TavilyAdapter.Search(adapter, c1, query, maxResults) == TavilyAdapter.Search(adapter, c2, query, maxResults)
  {
  }

  /** The request carries the caller's query and count unchanged, and the
      options never depend on them. */
  lemma RequestForwardsArguments(q1: string, n1: int, q2: string, n2: int)
    ensures Request(q1, n1).query == q1 && Request(q1, n1).maxResults == n1
    ensures Request(q1, n1).options == Request(q2, n2).options == RequestOptions(Basic, false, false, false)
  {
  }
}
