/**
 * The HTTP values the proxy handles: header entries, URIs, requests and
 * responses. Only the parts of hyper's types that the proxy reads or writes
 * are kept.
 */
module Http {
  import opened Wrappers

  newtype byte = x: int | 0 <= x < 256

  /** A body is a sequence of bytes (hyper streams it; the proxy never looks inside). */
  type Body = seq<byte>

  predicate IsLowerAscii(s: string) {
    forall i | 0 <= i < |s| :: !('A' <= s[i] <= 'Z')
  }

  /**
   * hyper's HeaderName is stored lower-cased, which is what makes header
   * lookup case-insensitive; the type carries that normalisation.
   */
  type HeaderName = s: string | IsLowerAscii(s)

  /** One entry of a header map: a name and one value. */
  datatype Header = Header(name: HeaderName, value: seq<byte>)

  /**
   * A URI as the proxy sees it through `path()` and `query()`. An inbound
   * request carries an origin-form URI (no scheme, no authority); the
   * rewritten one is absolute. `query` is `None` when there is no `?` and
   * `Some("")` for a bare `?`.
   */
  datatype Uri = Uri(scheme: Option<string>, authority: Option<string>, path: string, query: Option<string>)

  /** The value of a request: what is handed to the upstream client. */
  /** `verb` is the HTTP method (the word `method` is reserved in Dafny). */
  datatype Message = Message(verb: string, uri: Uri, headers: seq<Header>, body: Body)

  datatype Response = Response(status: nat, headers: seq<Header>, body: Body)

  /** A request the handler owns and rewrites in place. */
  class Request {
    var verb: string
    var uri: Uri
    var headers: seq<Header>
    var body: Body

    constructor (m: Message)
      ensures Value() == m
    {
      verb, uri, headers, body := m.verb, m.uri, m.headers, m.body;
    }

    function Value(): Message
      reads this
    {
      Message(verb, uri, headers, body)
    }
  }

  predicate IsAscii(s: string) {
    forall i | 0 <= i < |s| :: s[i] as int < 128
  }

  /** The bytes of an ASCII string (its UTF-8 encoding). */
  function AsciiBytes(s: string): (b: Body)
    requires IsAscii(s)
  {
    seq(|s|, i requires 0 <= i < |s| => s[i] as int as byte)
  }

  /** Reads each byte of a body back as one character. */
  function BodyText(b: Body): (s: string)
  {
    seq(|b|, i requires 0 <= i < |b| => b[i] as int as char)
  }

  /** Helper: decoding the ASCII bytes of a string gives the string back. */
  lemma AsciiRoundTrip(s: string)
    requires IsAscii(s)
    ensures BodyText(AsciiBytes(s)) == s
  {
  }
}
