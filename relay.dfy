/** The edge worker of workers/app.ts: requests under `/proxy/replicate/` are
    relayed to the Replicate API, everything else is served from the static
    assets. The upstream `fetch` and the asset handler are oracles. */
module Relay {
  import opened Types
  import opened Strings

  /** The text `replace` removes from the path. */
  const ProxyPrefix: string := "/proxy/replicate"

  /** The route test of the worker: `/proxy/replicate/`. */
  const ProxyRoute: string := ProxyPrefix + "/"

  const Upstream: string := "https://api.replicate.com"

  /** The parts of `new URL(request.url)` the worker can see. */
  datatype Url = Url(pathname: string, search: string)

  datatype Request = Request(url: Url, httpMethod: string, headers: seq<(string, string)>, body: Option<string>)

  datatype Response = Response(status: int, headers: seq<(string, string)>, body: Option<string>)

  /** What the worker sends upstream: the target URL and the caller's method,
      headers and body. */
  datatype Outbound = Outbound(target: string, httpMethod: string, headers: seq<(string, string)>, body: Option<string>)

  datatype Route = Proxied(target: string) | Assets

  /** The routing rule: `startsWith` on the path, then the first occurrence of
      the prefix replaced by nothing. */
  function RouteOf(pathname: string): (r: Route)
    ensures r.Proxied? <==> StartsWith(pathname, ProxyRoute)
    ensures r.Proxied? ==> r.target == Upstream + pathname[|ProxyPrefix|..]
  {
    if StartsWith(pathname, ProxyRoute) then
      assert pathname[..|ProxyPrefix|] == pathname[..|ProxyRoute|][..|ProxyPrefix|];
      Proxied(Upstream + ReplaceFirst(pathname, ProxyPrefix, ""))
    else Assets
  }

  /** `fetch(request, env)`: `upstream` answers the relayed request and `assets`
      is `env.ASSETS.fetch`. The upstream response is returned with its status,
      headers and body. The target is built from the path alone, so the query
      string is not forwarded. */
  function Handle(req: Request, upstream: Outbound -> Response, assets: Request -> Response): (r: Response)
    ensures RouteOf(req.url.pathname).Assets? ==> r == assets(req)
    ensures RouteOf(req.url.pathname).Proxied? ==>
      r == upstream(Outbound(Upstream + req.url.pathname[|ProxyPrefix|..], req.httpMethod, req.headers, req.body))
  {
    match RouteOf(req.url.pathname)
    case Assets => assets(req)
    case Proxied(target) =>
      var response := upstream(Outbound(target, req.httpMethod, req.headers, req.body));
      Response(response.status, response.headers, response.body)
  }

  /** Every path under the route is relayed, with the text after the route kept
      whole after the API host. */
  lemma ProxiedPath(rest: string)
    ensures RouteOf(ProxyRoute + rest) == Proxied(Upstream + "/" + rest)
  {
    var p := ProxyRoute + rest;
    assert p[..|ProxyRoute|] == ProxyRoute;
    assert p[|ProxyPrefix|..] == "/" + rest;
    assert Upstream + ("/" + rest) == Upstream + "/" + rest;
  }

  /** A relayed request's path is recovered from its target: the route test and the
      rewrite lose nothing. */
  lemma TargetRecoversPath(pathname: string)
    requires RouteOf(pathname).Proxied?
    ensures var t := RouteOf(pathname).target;
      StartsWith(t, Upstream + "/") && ProxyPrefix + t[|Upstream|..] == pathname
  {
    var t := RouteOf(pathname).target;
    assert pathname[..|ProxyRoute|] == ProxyRoute;
    assert pathname[|ProxyPrefix|] == pathname[..|ProxyRoute|][|ProxyPrefix|];
    assert pathname[..|ProxyPrefix|] == pathname[..|ProxyRoute|][..|ProxyPrefix|];
    assert t[|Upstream|..] == pathname[|ProxyPrefix|..];
    assert t[..|Upstream| + 1] == Upstream + "/";
    assert pathname == pathname[..|ProxyPrefix|] + pathname[|ProxyPrefix|..];
  }

  /** The route without its trailing slash, and any other path, goes to the assets. */
  lemma AssetExamples()
    ensures RouteOf("/proxy/replicate") == Assets
    ensures RouteOf("/") == Assets
  {
    assert |ProxyRoute| == 17;
  }
}
