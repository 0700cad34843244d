# A verified model of a small HTTP reverse proxy

The proxy accepts inbound HTTP requests and answers `/status` itself, with a
rendering of how many requests it has proxied. It forwards every other request
to the fixed host `https://www.snoyman.com`. Before forwarding, it removes the
`content-length`, `transfer-encoding`, `accept-encoding` and
`content-encoding` headers. It then rewrites the URI to the host followed by
the original path and, when there is one, `?` and the original query. The
counter goes up before anything is forwarded, so failed attempts are counted
too.

Modules, following the components of `src/main.rs`:

- `Wrappers`: `Option` and `Result`.
- `Http`: bytes, header entries (names lower-cased by type, as hyper's
  `HeaderName` stores them), URIs as `path()`/`query()` see them, request
  values (`Message`), responses, and the `Request` class the handler rewrites
  in place.
- `Headers`: `HeaderMap::remove` on a sequence of entries, the four stripped
  names, the sequence of removals the loop performs, and a one-pass filter
  (`Without`) it is proved equal to.
- `Rewriter`: `TARGET_HOST`, the candidate URI string (`CandidateUri`), and
  its inverse `SplitCandidate`.
- `StatsCounter`: the `Stats` class with its one `proxied` field, and the
  `/status` body: the derived `Debug` text `Stats { proxied: N }` with `N` in
  decimal, together with a parser that reads `N` back.
- `Proxy`: `Mutated` (the request that `mutate_request` leaves behind), `MutateRequest` (the `for` loop over the four names, then the URI
  replacement) and the `Handler` class whose `Handle` method is the body of
  the per-request service.
- `Scenarios`: three client methods. They show that after five forwards
  `/status` reports 5, that `GET /blog?x=1` with `content-length` and `accept`
  goes out as `https://www.snoyman.com/blog?x=1` with `accept` only, and that
  a refused upstream connection yields an error with the attempt still
  counted.

Collaborators that cannot be seen are parameters:

- hyper's URI parser is `parse: string -> Option<Uri>`.
- The HTTPS client is an `Upstream` object held by the handler. Its answer is
  a function `respond` of the request it is sent. A ghost `sent` sequence
  records every request handed to it, so the handler's contract can say how
  many upstream calls were made and with what.

When forwarding fails, `Handle` returns an error to its caller, which is
hyper's server. It does not build an HTTP error response itself: the
conversion is hyper's, and it is not part of this model. The `/status` route
matches on the path alone, so `/status?x` is also answered locally.

## Model

| member | source | states |
|---|---|---|
| `Headers.Remove` | src/main.rs:13 | removing a name keeps exactly the entries with another name, and never grows the set |
| `Headers.RemoveEach` | src/main.rs:12-14 | the loop's successive removals; the body is the definition, and its contract keeps only entries that were present with a name not in the list. Partner: `RemoveEachIsWithout` |
| `Headers.RemoveEachIsWithout` | src/main.rs:12-14 | the four successive removals equal one order-preserving filter by the four names |
| `Headers.RemoveAfterWithout` | src/main.rs:12-14 | one more removal after a filter is the filter by the extended name list |
| `Headers.WithoutMembers` | src/main.rs:12-14 | an entry is in the filtered set if and only if it was present and its name is not removed |
| `Headers.WithoutCounts` | src/main.rs:12-14 | every kept entry keeps its multiplicity; entries with a removed name occur zero times |
| `Headers.WithoutAbsent` | src/main.rs:12-14 | filtering a set that holds none of the names returns it unchanged |
| `Headers.RemoveAbsent` | src/main.rs:13 | removing an absent header is a no-op |
| `Headers.SanitisedContents` | src/main.rs:12-14 | after sanitising no stripped name remains, and every other entry is still present |
| `Headers.SanitiseIdempotent` | src/main.rs:12-14 | sanitising twice equals sanitising once |
| `Rewriter.CandidateUri` | src/main.rs:16-20 | the `match` on `query()` with `format!`; the body is the definition. Its contract: the string starts with the target host, continues with the path, and is longer than that exactly when a query is present. Partner: `CandidateSplits` |
| `Rewriter.IndexOf` | src/main.rs:17-19 | the first `?` position: present exactly when `?` occurs, with no `?` before it; this is where `query()` starts |
| `Rewriter.CandidateSplits` | src/main.rs:16-20 | the candidate string is the target host followed by something that splits back into the original path and query (`None` without `?`, `Some(q)` after it) |
| `Rewriter.CandidateInjective` | src/main.rs:16-20 | distinct path/query pairs give distinct candidate strings |
| `StatsCounter.Stats.constructor` | src/main.rs:35-37 | the counter starts at 0 |
| `StatsCounter.Decimal` | src/main.rs:59 | the rendered count is a non-empty digit string, with a leading `0` only for zero |
| `StatsCounter.DecimalRoundTrip` | src/main.rs:59 | the decimal rendering reads back as the same number |
| `StatsCounter.StatusText` | src/main.rs:59 | the `{:?}` rendering `Stats { proxied: N }`; the body is the definition. Its contract: ASCII, opening with `Stats { proxied: `. Partner: `StatusTextRoundTrip` |
| `StatsCounter.StatusTextRoundTrip` | src/main.rs:59 | `Stats { proxied: N }` parses back to `N` |
| `StatsCounter.StatusResponse` | src/main.rs:59-60 | `Response::new(body)`: status 200, no headers, the status text as body. Partner: `StatusResponseReports` |
| `StatsCounter.StatusResponseReports` | src/main.rs:58-60 | the status response is 200 and its body reports the counter value passed to it |
| `StatsCounter.StatusResponseInjective` | src/main.rs:59 | different counter values give different status responses |
| `Proxy.Mutated` | src/main.rs:11-22 | the request that `mutate_request` leaves behind; the body is the definition. Its contract: no stripped header remains, every other header is kept, method and body are unchanged, and the URI is the parsed candidate or, when parsing fails, the old one. Partners: `SanitisedContents`, `CandidateSplits` |
| `Proxy.MutateRequest` | src/main.rs:11-23 | the new request is `Mutated(old)`: no stripped header remains and every other one is kept; method and body are unchanged; if the candidate does not parse, the result is `RewriteFailed` and the URI is unchanged, with headers already stripped; otherwise the URI is the parsed candidate |
| `Proxy.Upstream.constructor` | src/main.rs:33-34 | the client answers with the given function and has been sent nothing yet |
| `Proxy.Upstream.Send` | src/main.rs:65 | one `client.request` call: the request is appended to `sent` and the answer is `respond` of it |
| `Proxy.Handler.constructor` | src/main.rs:53-55 | the handler shares the given counter and client |
| `Proxy.Handler.Handle` | src/main.rs:57-67 | the counter never decreases. `/status` answers the status response for the current count, and changes neither counter nor request. It sends the client nothing. Any other path raises the counter by exactly 1 before the rewrite, so a rewrite failure or an upstream failure is still counted. A rewrite failure returns `RewriteFailed` and sends the client nothing. Otherwise the client is sent exactly one request, the mutated one. Its response is returned unmodified, or its error as `UpstreamFailed` |
| `Scenarios.BlogHeaders` | src/main.rs:12-14 | of `content-length` and `accept`, only `accept` survives sanitising |

## Left out

- Process start-up, `Server::bind` and port 3000: socket I/O.
- The rustls HTTPS connector and the network request of `client.request`: foreign I/O. The client is an abstract function from the request sent to a response or an error.
- `Arc`, `RwLock`, the `make_service_fn`/`service_fn` closures and the async runtime. Requests are handled one after another on a plain field. No lost updates under concurrency is therefore not modelled.
- hyper's URI parser and `HeaderMap` internals. The parser is the `parse` parameter. `HeaderMap` is a sequence of entries.
- The order of the surviving headers: `HeaderMap::remove` may reorder entries internally. The model keeps their relative order and proves that membership and multiplicities are preserved.
- The `println!` diagnostic line: output only.
- `Proxy.Handler.Handle`: `proxied` is an unbounded `nat`. The source's `usize` overflows after 2^N increments on an N-bit target, with a panic in debug builds and a wrap in release builds. That is not modelled.
- What the hyper server does with an error returned by the handler.
