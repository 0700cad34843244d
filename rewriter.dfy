/**
 * URI reconstruction: the string mutate_request builds from the fixed
 * upstream host and the inbound request's path and query.
 */
module Rewriter {
  import opened Wrappers
  import opened Http

  /** The upstream every request is forwarded to (scheme and host). */
  const TARGET_HOST: string := "https://www.snoyman.com"

  /** The candidate URI text: host, path, and `?query` when a query is present. */
  function CandidateUri(u: Uri): (r: string)
    ensures |r| >= |TARGET_HOST| + |u.path| && r[..|TARGET_HOST|] == TARGET_HOST
    ensures r[|TARGET_HOST|..|TARGET_HOST| + |u.path|] == u.path
    ensures u.query.None? <==> |r| == |TARGET_HOST| + |u.path|
  {
    match u.query
    case None => TARGET_HOST + u.path
    case Some(q) => TARGET_HOST + u.path + "?" + q
  }

  /** The first position of c in s, if any. */
  function IndexOf(s: string, c: char): (r: Option<nat>)
    ensures r.None? <==> c !in s
    ensures r.Some? ==> r.value < |s| && s[r.value] == c && c !in s[..r.value]
  {
    if s == [] then None
    else if s[0] == c then Some(0)
    else
      match IndexOf(s[1..], c)
      case None => None
      case Some(i) => Some(i + 1)
  }

  /**
   * Inverse of CandidateUri: strips the host and splits the rest at the
   * first `?` into path and query.
   */
  function SplitCandidate(s: string): Option<(string, Option<string>)>
  {
    if |s| < |TARGET_HOST| || s[..|TARGET_HOST|] != TARGET_HOST then None
    else
      var rest := s[|TARGET_HOST|..];
      match IndexOf(rest, '?')
      case None => Some((rest, None))
      case Some(i) => Some((rest[..i], Some(rest[i + 1..])))
  }

  /**
   * The candidate starts with the target host and gives back the path and
   * the query unchanged. A parsed path never holds `?`, since `?` opens the
   * query.
   */
  lemma CandidateSplits(u: Uri)
    requires '?' !in u.path
    ensures SplitCandidate(CandidateUri(u)) == Some((u.path, u.query))
  {
    var s := CandidateUri(u);
    assert s[..|TARGET_HOST|] == TARGET_HOST;
    var rest := s[|TARGET_HOST|..];
    match u.query
    case None =>
      assert rest == u.path;
    case Some(q) =>
      assert rest == u.path + "?" + q;
      var p := |u.path|;
      assert rest[p] == '?';
      var i := IndexOf(rest, '?').value;
      assert i == p;
      assert rest[..i] == u.path;
      assert rest[i + 1..] == q;
  }

  /** Distinct path/query pairs give distinct candidates. */
  lemma CandidateInjective(u: Uri, v: Uri)
    requires '?' !in u.path && '?' !in v.path
    requires CandidateUri(u) == CandidateUri(v)
    ensures u.path == v.path && u.query == v.query
  {
    CandidateSplits(u);
    CandidateSplits(v);
  }
}
