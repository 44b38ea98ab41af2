/** The mappings table that ships with the proxy, and how it routes. */
module Mappings {
  import opened Wrappers
  import opened Pattern
  import opened Router
  import Proxy

  const LocalTarget: string := "http://127.0.0.1:8080"

  /** `/cms` and `/site` pass through unchanged; everything else is sent
      under `/site`. */
  const Table: seq<Rule> := [
    Rule(Some("*"), Some(SegmentPrefix("/cms")), None, Route(LocalTarget)),
    Rule(Some("*"), Some(SegmentPrefix("/site")), None, Route(LocalTarget)),
    Rule(Some("*"), Some(AnchorStart), Some("/site"), Route(LocalTarget))
  ]

  /** Every request is forwarded to the local backend, whatever its `Host`
      header: URLs in the `/cms` or `/site` segment unchanged, every other
      URL with `/site` put in front of it by the catch-all rule. */
  lemma ShippedDispatch(host: Option<string>, url: string)
    ensures Dispatch(Table, host, url) ==
              Forward(LocalTarget,
                      if StartsWithSegment("/cms", url) || StartsWithSegment("/site", url) then url
                      else "/site" + url)
  {
    if StartsWithSegment("/cms", url) {
      DispatchFirstMatchWins(Table, host, url, 0);
    } else if StartsWithSegment("/site", url) {
      DispatchFirstMatchWins(Table, host, url, 1);
    } else {
      DispatchFirstMatchWins(Table, host, url, 2);
      ReplaceAnchorStart(url, "/site");
    }
  }

  /** The shipped table never answers 404. */
  lemma ShippedNeverNotFound(host: Option<string>, url: string)
    ensures Dispatch(Table, host, url) != NotFound
  {
    ShippedDispatch(host, url);
  }

  /** Sample requests in the `/cms` and `/site` segments pass through unchanged. */
  lemma ShippedPassThroughExample(host: Option<string>, url: string)
    requires url == "/cms/page" || url == "/site/x"
    ensures Dispatch(Table, host, url) == Forward(LocalTarget, url)
  {
    assert url[..5] == "/cms/" || url[..6] == "/site/";
    ShippedDispatch(host, url);
  }

  /** Sample requests outside them, `/cmsx` included, are sent under `/site`:
      each differs from `/cms/` and from `/site` at some character. */
  lemma ShippedCatchAllExample(host: Option<string>, url: string)
    requires url == "/other" || url == "/cmsx" || url == "/foo"
    ensures Dispatch(Table, host, url) == Forward(LocalTarget, "/site" + url)
  {
    if url == "/cmsx" {
      assert url[4] != "/cms/"[4] && url[1] != "/site/"[1];
    } else {
      assert url[1] != "/cms/"[1] && url[1] != "/site/"[1];
    }
    ShippedDispatch(host, url);
  }

  /** A client of the handler: what callers can conclude from its contract
      for the shipped table. */
  method HandleSamples()
  {
    var req := new Proxy.Request(Some("example.org"), "/other");
    var res := new Proxy.Response();
    var out := Proxy.ProxyHandler(Table, req, res);
    ShippedCatchAllExample(Some("example.org"), "/other");
    assert out == Forward(LocalTarget, "/site" + "/other");
    assert req.url == "/site" + "/other" && res.status == None;
  }
}
