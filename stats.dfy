/**
 * The proxied-request counter and the text the `/status` route renders
 * from it (the derived `Debug` form of the struct, `Stats { proxied: N }`).
 */
module StatsCounter {
  import opened Wrappers
  import opened Http

  /** The shared counter: one field, created at zero. */
  class Stats {
    var proxied: nat

    constructor ()
      ensures proxied == 0
    {
      proxied := 0;
    }
  }

  predicate IsDigit(c: char) {
    '0' <= c <= '9'
  }

  predicate AllDigits(s: string) {
    forall i | 0 <= i < |s| :: IsDigit(s[i])
  }

  function DigitChar(d: nat): (c: char)
    requires d < 10
    ensures IsDigit(c)
  {
    ('0' as int + d) as char
  }

  function DigitValue(c: char): (d: nat)
    requires IsDigit(c)
    ensures d < 10 && DigitChar(d) == c
  {
    c as int - '0' as int
  }

  /** Decimal rendering of an unsigned integer: digits only, no leading zero. */
  function Decimal(n: nat): (s: string)
    ensures |s| >= 1 && AllDigits(s)
    ensures s[0] == '0' <==> n == 0
    decreases n
  {
    if n < 10 then [DigitChar(n)] else Decimal(n / 10) + [DigitChar(n % 10)]
  }

  /** The value of a string of decimal digits. */
  function DecimalValue(s: string): nat
    requires AllDigits(s)
    decreases |s|
  {
    if s == [] then 0
    else DecimalValue(s[..|s| - 1]) * 10 + DigitValue(s[|s| - 1])
  }

  lemma {:induction false} DecimalRoundTrip(n: nat)
    ensures DecimalValue(Decimal(n)) == n
    decreases n
  {
    var s := Decimal(n);
    if n >= 10 {
      DecimalRoundTrip(n / 10);
      assert s[..|s| - 1] == Decimal(n / 10);
      assert s[|s| - 1] == DigitChar(n % 10);
    } else {
      assert s[..|s| - 1] == [];
    }
  }

  const STATUS_PREFIX: string := "Stats { proxied: "
  const STATUS_SUFFIX: string := " }"

  /** The `/status` body text for a counter value. */
  function StatusText(n: nat): (s: string)
    ensures IsAscii(s)
    ensures |s| > |STATUS_PREFIX| + |STATUS_SUFFIX| && s[..|STATUS_PREFIX|] == STATUS_PREFIX
  {
    STATUS_PREFIX + Decimal(n) + STATUS_SUFFIX
  }

  /** Reads the counter value back out of a status text. */
  function ParseStatusText(s: string): Option<nat>
  {
    if |s| < |STATUS_PREFIX| + |STATUS_SUFFIX| then None
    else
      var digits := s[|STATUS_PREFIX|..|s| - |STATUS_SUFFIX|];
      if s[..|STATUS_PREFIX|] == STATUS_PREFIX && s[|s| - |STATUS_SUFFIX|..] == STATUS_SUFFIX && AllDigits(digits)
      then Some(DecimalValue(digits))
      else None
  }

  lemma StatusTextRoundTrip(n: nat)
    ensures ParseStatusText(StatusText(n)) == Some(n)
  {
    var s, d := StatusText(n), Decimal(n);
    assert s[..|STATUS_PREFIX|] == STATUS_PREFIX;
    assert s[|s| - |STATUS_SUFFIX|..] == STATUS_SUFFIX;
    assert s[|STATUS_PREFIX|..|s| - |STATUS_SUFFIX|] == d;
    DecimalRoundTrip(n);
  }

  /** What `/status` answers: 200 OK, no headers, the rendered counter as body. */
  function StatusResponse(n: nat): (r: Response)
    ensures r.status == 200 && r.headers == []
    ensures |r.body| == |StatusText(n)|
  {
    Response(200, [], AsciiBytes(StatusText(n)))
  }

  /** Reads the counter value out of a response body. */
  function ReadStatus(b: Body): Option<nat>
  {
    ParseStatusText(BodyText(b))
  }

  /** The status response is a success that reports exactly the counter value. */
  lemma StatusResponseReports(n: nat)
    ensures StatusResponse(n).status == 200
    ensures ReadStatus(StatusResponse(n).body) == Some(n)
  {
    AsciiRoundTrip(StatusText(n));
    StatusTextRoundTrip(n);
  }

  /** Different counter values give different status responses. */
  lemma StatusResponseInjective(a: nat, b: nat)
    requires StatusResponse(a) == StatusResponse(b)
    ensures a == b
  {
    StatusResponseReports(a);
    StatusResponseReports(b);
  }
}
