/**
 * The request pipeline: mutate_request (sanitise headers, rebuild the URI)
 * and the per-request handler that routes `/status` and counts and forwards
 * everything else.
 */
module Proxy {
  import opened Wrappers
  import opened Http
  import opened Headers
  import opened Rewriter
  import opened StatsCounter

  /** The route answered locally from the counter. */
  const STATUS_PATH: string := "/status"

  /** The two ways a forwarded request fails, with the context each error carries. */
  datatype ProxyError = RewriteFailed | UpstreamFailed(cause: string) {
    function Context(): string {
      match this
      case RewriteFailed => "Parsing URI in mutate request"
      case UpstreamFailed(_) => "Making request to backend server."
    }
  }

  /** The request mutate_request leaves behind, whether or not the new URI parses. */
  function Mutated(m: Message, parse: string -> Option<Uri>): (r: Message)
    ensures forall h :: h in r.headers ==> h.name !in STRIPPED
    ensures forall h :: h in m.headers && h.name !in STRIPPED ==> h in r.headers
    ensures r.verb == m.verb && r.body == m.body
    ensures parse(CandidateUri(m.uri)).None? ==> r.uri == m.uri
    ensures parse(CandidateUri(m.uri)).Some? ==> r.uri == parse(CandidateUri(m.uri)).value
  {
    SanitisedContents(m.headers);
    var uri := match parse(CandidateUri(m.uri)) case None => m.uri case Some(u) => u;
    Message(m.verb, uri, Sanitised(m.headers), m.body)
  }

  /**
   * mutate_request: removes the four framing and encoding headers, then
   * replaces the URI by the parse of the candidate string; `parse` stands for
   * hyper's URI parser. Stripping happens first, so it has happened even when
   * parsing fails.
   */
  method MutateRequest(req: Request, parse: string -> Option<Uri>) returns (res: Result<(), ProxyError>)
    modifies req
    ensures req.Value() == Mutated(old(req.Value()), parse)
    ensures forall h :: h in req.headers ==> h.name !in STRIPPED
    ensures forall h :: h in old(req.headers) && h.name !in STRIPPED ==> h in req.headers
    ensures req.verb == old(req.verb) && req.body == old(req.body)
    ensures parse(CandidateUri(old(req.uri))).None? ==> res == Err(RewriteFailed) && req.uri == old(req.uri)
    ensures parse(CandidateUri(old(req.uri))).Some? ==> res == Ok(()) && req.uri == parse(CandidateUri(old(req.uri))).value
  {
    for i := 0 to |STRIPPED|
      invariant req.headers == RemoveEach(old(req.headers), STRIPPED[..i])
      invariant req.verb == old(req.verb) && req.uri == old(req.uri) && req.body == old(req.body)
    {
      assert STRIPPED[..i + 1][..i] == STRIPPED[..i];
      req.headers := Remove(req.headers, STRIPPED[i]);
    }
    assert STRIPPED[..|STRIPPED|] == STRIPPED;
    RemoveEachIsWithout(old(req.headers), STRIPPED);
    SanitisedContents(old(req.headers));

    var uriString := CandidateUri(req.uri);
    match parse(uriString)
    case None =>
      res := Err(RewriteFailed);
    case Some(u) =>
      req.uri := u;
      res := Ok(());
  }

  /**
   * The upstream HTTPS client. What it answers is a function of the request
   * it is sent; `sent` records every request handed to it, in order.
   */
  class Upstream {
    const respond: Message -> Result<Response, string>
    ghost var sent: seq<Message>

    constructor (respond: Message -> Result<Response, string>)
      ensures this.respond == respond && sent == []
    {
      this.respond := respond;
      sent := [];
    }

    /** `client.request(req)`: one call, answered by `respond`. */
    method Send(m: Message) returns (r: Result<Response, string>)
      modifies this
      ensures sent == old(sent) + [m]
      ensures r == respond(m)
    {
      sent := sent + [m];
      r := respond(m);
    }
  }

  /**
   * The per-request service: it shares the counter with every other handler
   * and holds the upstream client.
   */
  class Handler {
    const stats: Stats
    const client: Upstream

    constructor (stats: Stats, client: Upstream)
      ensures this.stats == stats && this.client == client
    {
      this.stats := stats;
      this.client := client;
    }

    /** Handles one request. */
    method Handle(req: Request, parse: string -> Option<Uri>) returns (res: Result<Response, ProxyError>)
      modifies stats, req, client
      ensures stats.proxied >= old(stats.proxied)
      // `/status`: report the counter, change nothing, call nothing
      ensures old(req.uri.path) == STATUS_PATH ==>
        && res == Ok(StatusResponse(old(stats.proxied)))
        && stats.proxied == old(stats.proxied)
        && req.Value() == old(req.Value())
        && client.sent == old(client.sent)
      // any other path: counted first, whatever happens next
      ensures old(req.uri.path) != STATUS_PATH ==>
        && stats.proxied == old(stats.proxied) + 1
        && req.Value() == Mutated(old(req.Value()), parse)
      // the rewrite fails: no upstream call
      ensures old(req.uri.path) != STATUS_PATH && parse(CandidateUri(old(req.uri))).None? ==>
        && res == Err(RewriteFailed)
        && client.sent == old(client.sent)
      // the rewrite succeeds: exactly one call, with the mutated request, relayed as it comes back
      ensures old(req.uri.path) != STATUS_PATH && parse(CandidateUri(old(req.uri))).Some? ==>
        && client.sent == old(client.sent) + [Mutated(old(req.Value()), parse)]
        && res == match client.respond(Mutated(old(req.Value()), parse))
                  case Ok(r) => Ok(r)
                  case Err(e) => Err(UpstreamFailed(e))
    {
      if req.uri.path == STATUS_PATH {
        res := Ok(StatusResponse(stats.proxied));
      } else {
        stats.proxied := stats.proxied + 1;
        var mutated := MutateRequest(req, parse);
        if mutated.Err? {
          res := Err(mutated.error);
          return;
        }
        var upstream := client.Send(req.Value());
        match upstream
        case Ok(r) =>
          res := Ok(r);
        case Err(e) =>
          res := Err(UpstreamFailed(e));
      }
    }
  }
}
