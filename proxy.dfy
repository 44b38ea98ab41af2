/** The request handler: route a request, answer 404 when nothing matches,
    otherwise overwrite the request URL with the rewritten one and hand the
    request to the forwarder. */
module Proxy {
  import opened Wrappers
  import opened Router

  /** The parts of an incoming request the handler reads or changes. */
  class Request {
    /** The `Host` header; `None` when the client sent none. */
    const host: Option<string>
    var url: string

    constructor (host: Option<string>, url: string)
      ensures this.host == host && this.url == url
    {
      this.host := host;
      this.url := url;
    }
  }

  /** The response, as far as the handler itself writes it. */
  class Response {
    /** The status line written by `writeHead`; `None` until it is written. */
    var status: Option<int>
    var body: string
    var ended: bool

    constructor ()
      ensures status == None && body == [] && !ended
    {
      status := None;
      body := [];
      ended := false;
    }

    method WriteHead(code: int)
      modifies this
      ensures status == Some(code) && body == old(body) && ended == old(ended)
    {
      status := Some(code);
    }

    method End()
      modifies this
      ensures ended && status == old(status) && body == old(body)
    {
      ended := true;
    }
  }

  /** `proxyHandler`.  The returned outcome stands for the call to the
      forwarding library: `Forward(target, url)` is `proxyServer.web` with the
      rule's route, and `NotFound` means no forwarding call was made. */
  method ProxyHandler(table: seq<Rule>, req: Request, res: Response) returns (outcome: Outcome)
    modifies req, res
    ensures outcome == Dispatch(table, req.host, old(req.url))
    ensures outcome.NotFound? ==>
              && res.status == Some(404) && res.body == old(res.body) && res.ended
              && req.url == old(req.url)
    ensures outcome.Forward? ==>
              && req.url == outcome.url
              && res.status == old(res.status) && res.body == old(res.body) && res.ended == old(res.ended)
  {
    var mapping := FindMapping(table, req.host, req.url);
    if mapping.None? {
      res.WriteHead(404);
      res.End();
      outcome := NotFound;
    } else {
      var um := table[mapping.value];
      var oldReqUrl := req.url;
      if Truthy(um.pathreplace) {
        req.url := Pattern.Replace(oldReqUrl, um.pathregex.value, um.pathreplace.value);
      }
      outcome := Forward(um.route.target, req.url);
    }
  }
}
