/** Client-side scenarios: what a caller can conclude from the handler's contract alone. */
module Scenarios {
  import opened Wrappers
  import opened Http
  import opened Headers
  import opened Rewriter
  import opened StatsCounter
  import opened Proxy

  /** Five forwarded requests, then `/status` reports `proxied: 5`. */
  method StatusAfterFiveForwards(parse: string -> Option<Uri>, respond: Message -> Result<Response, string>)
  {
    var stats := new Stats();
    var client := new Upstream(respond);
    var handler := new Handler(stats, client);
    for i := 0 to 5
      invariant stats.proxied == i
    {
      var req := new Request(Message("GET", Uri(None, None, "/blog", None), [], []));
      var res := handler.Handle(req, parse);
    }
    ghost var sentBefore := client.sent;
    var status := new Request(Message("GET", Uri(None, None, STATUS_PATH, None), [], []));
    var res := handler.Handle(status, parse);
    StatusResponseReports(5);
    assert res.Ok? && ReadStatus(res.value.body) == Some(5);
    assert client.sent == sentBefore && stats.proxied == 5;
  }

  /** Of `content-length` and `accept`, sanitising keeps `accept` alone. */
  lemma BlogHeaders(length: Header, accept: Header)
    requires length.name == "content-length" && accept.name == "accept"
    ensures Sanitised([length, accept]) == [accept]
  {
    assert length.name == STRIPPED[0];
    assert forall k | k in STRIPPED :: |k| != |accept.name|;
    assert [length, accept][1..] == [accept];
    assert [accept][1..] == [];
    assert accept.name !in STRIPPED;
    assert Without([accept], STRIPPED) == [accept] + Without([], STRIPPED);
    assert Without([length, accept], STRIPPED) == Without([accept], STRIPPED);
  }

  /** `GET /blog?x=1` with `content-length` and `accept` goes out to the host with `accept` only. */
  method BlogRewrite(respond: Message -> Result<Response, string>)
  {
    var target := Uri(Some("https"), Some("www.snoyman.com"), "/blog", Some("x=1"));
    var parse := (s: string) => if s == "https://www.snoyman.com/blog?x=1" then Some(target) else None;
    var length := Header("content-length", [49, 48]);
    var accept := Header("accept", [116, 101, 120, 116, 47, 104, 116, 109, 108]);
    var stats := new Stats();
    var client := new Upstream(respond);
    var handler := new Handler(stats, client);
    var req := new Request(Message("GET", Uri(None, None, "/blog", Some("x=1")), [length, accept], []));
    assert CandidateUri(req.uri) == "https://www.snoyman.com/blog?x=1";
    BlogHeaders(length, accept);
    var res := handler.Handle(req, parse);
    assert client.sent == [Message("GET", target, [accept], [])];
    assert stats.proxied == 1;
  }

  /** An upstream that refuses the connection: the caller gets the upstream error, the attempt is still counted. */
  method UpstreamRefused()
  {
    var parse := (s: string) => Some(Uri(Some("https"), Some("www.snoyman.com"), "/", None));
    var refusing := (m: Message) => Err("connection refused");
    var stats := new Stats();
    var client := new Upstream(refusing);
    var handler := new Handler(stats, client);
    var req := new Request(Message("GET", Uri(None, None, "/", None), [], []));
    var res := handler.Handle(req, parse);
    assert res == Err(UpstreamFailed("connection refused"));
    assert res.error.Context() == "Making request to backend server.";
    assert stats.proxied == 1 && |client.sent| == 1;
  }
}
