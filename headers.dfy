/**
 * Header sanitising: the four framing and encoding headers that
 * mutate_request removes before a request is re-issued.
 */
module Headers {
  import opened Http

  /** The names removed, in the order the loop removes them. */
  const STRIPPED: seq<HeaderName> := ["content-length", "transfer-encoding", "accept-encoding", "content-encoding"]

  /**
   * HeaderMap::remove: every entry with the given name goes, every other
   * entry stays.
   */
  function Remove(hs: seq<Header>, key: HeaderName): (r: seq<Header>)
    ensures forall h :: h in r <==> h in hs && h.name != key
    ensures |r| <= |hs|
  {
    if hs == [] then []
    else if hs[0].name == key then Remove(hs[1..], key)
    else [hs[0]] + Remove(hs[1..], key)
  }

  /** Successive removal of each name in keys, first to last. */
  function RemoveEach(hs: seq<Header>, keys: seq<HeaderName>): (r: seq<Header>)
    ensures |r| <= |hs|
    ensures forall h :: h in r ==> h in hs && h.name !in keys
    decreases |keys|
  {
    if keys == [] then hs
    else Remove(RemoveEach(hs, keys[..|keys| - 1]), keys[|keys| - 1])
  }

  /** Reference definition: the entries whose name is not among keys, in their original order. */
  function Without(hs: seq<Header>, keys: seq<HeaderName>): seq<Header>
  {
    if hs == [] then []
    else (if hs[0].name in keys then [] else [hs[0]]) + Without(hs[1..], keys)
  }

  /** The header set mutate_request leaves behind. */
  function Sanitised(hs: seq<Header>): seq<Header>
  {
    Without(hs, STRIPPED)
  }

  /** Removing one more name from a filtered set filters by the longer list. */
  lemma {:induction false} RemoveAfterWithout(hs: seq<Header>, keys: seq<HeaderName>, k: HeaderName)
    ensures Remove(Without(hs, keys), k) == Without(hs, keys + [k])
  {
    if hs != [] {
      RemoveAfterWithout(hs[1..], keys, k);
      var rest := Without(hs[1..], keys);
      if hs[0].name !in keys {
        assert Without(hs, keys) == [hs[0]] + rest;
        assert ([hs[0]] + rest)[1..] == rest;
      } else {
        assert hs[0].name in keys + [k];
        assert Without(hs, keys) == rest;
      }
    }
  }

  /** The loop of removals computes the one-pass filter. */
  lemma {:induction false} RemoveEachIsWithout(hs: seq<Header>, keys: seq<HeaderName>)
    ensures RemoveEach(hs, keys) == Without(hs, keys)
    decreases |keys|
  {
    if keys == [] {
      WithoutNothing(hs);
    } else {
      var init, k := keys[..|keys| - 1], keys[|keys| - 1];
      RemoveEachIsWithout(hs, init);
      RemoveAfterWithout(hs, init, k);
      assert init + [k] == keys;
    }
  }

  lemma {:induction false} WithoutNothing(hs: seq<Header>)
    ensures Without(hs, []) == hs
  {
    if hs != [] {
      WithoutNothing(hs[1..]);
      assert [hs[0]] + hs[1..] == hs;
    }
  }

  /** An entry survives exactly when it was present and its name is not removed. */
  lemma {:induction false} WithoutMembers(hs: seq<Header>, keys: seq<HeaderName>, h: Header)
    ensures h in Without(hs, keys) <==> h in hs && h.name !in keys
  {
    if hs != [] {
      WithoutMembers(hs[1..], keys, h);
      assert hs == [hs[0]] + hs[1..];
    }
  }

  /** Multiplicities: removed names drop to zero, every other entry keeps its count. */
  lemma {:induction false} WithoutCounts(hs: seq<Header>, keys: seq<HeaderName>, h: Header)
    ensures multiset(Without(hs, keys))[h] == if h.name in keys then 0 else multiset(hs)[h]
  {
    if hs != [] {
      WithoutCounts(hs[1..], keys, h);
      assert hs == [hs[0]] + hs[1..];
    }
  }

  /** A set that holds none of the names is left exactly as it was. */
  lemma {:induction false} WithoutAbsent(hs: seq<Header>, keys: seq<HeaderName>)
    requires forall h :: h in hs ==> h.name !in keys
    ensures Without(hs, keys) == hs
  {
    if hs != [] {
      assert hs[0] in hs;
      WithoutAbsent(hs[1..], keys);
      assert [hs[0]] + hs[1..] == hs;
    }
  }

  /** Removing a name that is not present is a no-op. */
  lemma {:induction false} RemoveAbsent(hs: seq<Header>, k: HeaderName)
    requires forall h :: h in hs ==> h.name != k
    ensures Remove(hs, k) == hs
  {
    if hs != [] {
      assert hs[0] in hs;
      RemoveAbsent(hs[1..], k);
      assert [hs[0]] + hs[1..] == hs;
    }
  }

  /** After sanitising, none of the four names occurs and every other entry is still there. */
  lemma SanitisedContents(hs: seq<Header>)
    ensures forall h :: h in Sanitised(hs) ==> h.name !in STRIPPED
    ensures forall h :: h in hs && h.name !in STRIPPED ==> h in Sanitised(hs)
  {
    forall h ensures h in Sanitised(hs) <==> h in hs && h.name !in STRIPPED {
      WithoutMembers(hs, STRIPPED, h);
    }
  }

  /** Sanitising twice is sanitising once. */
  lemma SanitiseIdempotent(hs: seq<Header>)
    ensures Sanitised(Sanitised(hs)) == Sanitised(hs)
  {
    SanitisedContents(hs);
    WithoutAbsent(Sanitised(hs), STRIPPED);
  }
}
