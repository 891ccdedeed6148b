/** The two request primitives `_get` and `_text`, as the request they issue. */
module Requests {
  import opened Results
  import opened Config
  import opened Rewrite

  /** Which primitive built the request, and so how its response is read. */
  datatype Kind = Binary | Textual

  /** An HTTP GET: the URL, the single auth header, and the query parameters
      handed to the HTTP library for encoding (only `_text` uses them). */
  datatype Request = Request(url: string, headerName: string, headerValue: string,
                             params: seq<(string, string)>, kind: Kind)

  /** `_get(endpoint, query)`: host, path and query concatenated, with `webp`
      rewritten to `png` in the query only. */
  function Get(c: Client, endpoint: string, query: string): (r: Request)
    ensures r.kind == Binary && r.params == []
    ensures r.headerName == c.headerName && r.headerValue == c.token
    ensures |c.baseUrl + endpoint| <= |r.url| && r.url[..|c.baseUrl + endpoint|] == c.baseUrl + endpoint
    ensures r.url[|c.baseUrl + endpoint|..] == WebpToPng(query)
  {
    var prefix := c.baseUrl + endpoint;
    var url := prefix + WebpToPng(query);
    assert url[..|prefix|] == prefix && url[|prefix|..] == WebpToPng(query);
    Request(url, c.headerName, c.token, [], Binary)
  }

  /** `_text(endpoint, text, style)`: the path is `/text/<endpoint>`, the text
      goes as the `text` parameter and a non-empty style as `style`. */
  function TextGet(c: Client, endpoint: string, text: string, style: Option<string>): (r: Request)
    ensures r.kind == Textual
    ensures r.headerName == c.headerName && r.headerValue == c.token
    ensures r.url == c.baseUrl + "/text/" + endpoint
    ensures |r.params| >= 1 && r.params[0] == ("text", text)
    ensures |r.params| == 2 <==> style.Some? && style.value != ""
    ensures |r.params| == 2 ==> r.params[1] == ("style", style.value)
  {
    var params := [("text", text)];
    var params := if style.Some? && style.value != "" then params + [("style", style.value)] else params;
    Request(c.baseUrl + "/text/" + endpoint, c.headerName, c.token, params, Textual)
  }

  /** The URL of `_get` is the host and path untouched followed by the query,
      which arrives unchanged exactly when it holds no `webp`. */
  lemma GetRewritesOnlyQuery(c: Client, endpoint: string, query: string)
    ensures var r := Get(c, endpoint, query);
      && (r.url == c.baseUrl + endpoint + query <==> !Occurs(query, "webp"))
      && |r.url| <= |c.baseUrl + endpoint + query|
  {
    var r := Get(c, endpoint, query);
    var prefix := c.baseUrl + endpoint;
    RewriteFixesExactly(query);
    if r.url == prefix + query {
      assert (prefix + query)[|prefix|..] == query;
    }
  }

  /** A query without any `w`, such as `?name=test`, is sent verbatim: host
      `https://api.x`, path `/blame` and that query give exactly
      `https://api.x/blame?name=test`. */
  lemma GetPlainQueryVerbatim(c: Client, endpoint: string, query: string)
    requires forall k :: 0 <= k < |query| ==> query[k] != 'w'
    ensures Get(c, endpoint, query).url == c.baseUrl + endpoint + query
  {
    assert query == query + "";
    SkipPlainPrefix(query, "", "webp", "png");
  }

  /** Past the host, `_get` builds the same URL for every client: the
      endpoint, then the rewritten query. */
  lemma GetPastHost(c1: Client, c2: Client, endpoint: string, query: string)
    ensures var u1 := Get(c1, endpoint, query).url;
      var u2 := Get(c2, endpoint, query).url;
      && |c1.baseUrl| <= |u1| && |c2.baseUrl| <= |u2|
      && u1[|c1.baseUrl|..] == u2[|c2.baseUrl|..] == endpoint + WebpToPng(query)
  {
    var u1 := Get(c1, endpoint, query).url;
    var u2 := Get(c2, endpoint, query).url;
    assert u1 == c1.baseUrl + endpoint + WebpToPng(query);
    assert u2 == c2.baseUrl + endpoint + WebpToPng(query);
  }
}
