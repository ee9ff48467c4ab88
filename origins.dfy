/**
 * The origin allow-list of the extension: the `externally_connectable.matches`
 * list of its manifest, how a consent dialog rebuilds it, and the test that
 * decides whether a tab's origin may reach the relay.
 */
module Origins {
  import opened Text

  predicate NoDuplicates(s: seq<string>) {
    forall i, j :: 0 <= i < j < |s| ==> s[i] != s[j]
  }

  /** `[...new Set(s)]`: the distinct strings of `s`, each at its first occurrence. */
  function Dedup(s: seq<string>): (r: seq<string>)
    ensures NoDuplicates(r)
    ensures forall x :: x in r <==> x in s
    ensures |r| <= |s|
  {
    if s == [] then []
    else
      var init, last := s[..|s| - 1], s[|s| - 1];
      assert s == init + [last];
      var d := Dedup(init);
      if last in d then d else d + [last]
  }

  /** The index of the first occurrence of `x` in `s`. */
  ghost function FirstIndex(s: seq<string>, x: string): (k: nat)
    requires x in s
    ensures k < |s| && s[k] == x
    ensures forall j :: 0 <= j < k ==> s[j] != x
  {
    if s[0] == x then 0 else 1 + FirstIndex(s[1..], x)
  }

  lemma FirstIndexOfPrefix(s: seq<string>, t: seq<string>, x: string)
    requires x in s
    ensures FirstIndex(s + t, x) == FirstIndex(s, x)
  {
    var k' := FirstIndex(s, x);
    assert (s + t)[k'] == x;
  }

  /** The de-duplicated list keeps the strings in the order of their first occurrences. */
  lemma {:induction false} DedupKeepsFirstOccurrenceOrder(s: seq<string>)
    ensures forall i, j :: 0 <= i < j < |Dedup(s)| ==>
      FirstIndex(s, Dedup(s)[i]) < FirstIndex(s, Dedup(s)[j])
  {
    if s != [] {
      var init, last := s[..|s| - 1], s[|s| - 1];
      assert s == init + [last];
      var d := Dedup(init);
      DedupKeepsFirstOccurrenceOrder(init);
      forall y | y in init
        ensures FirstIndex(s, y) == FirstIndex(init, y) < |init|
      {
        FirstIndexOfPrefix(init, [last], y);
      }
      if last !in d {
        assert last !in init;
        assert FirstIndex(s, last) == |init|;
      }
    }
  }

  /** De-duplicating a longer list extends the de-duplicated shorter one. */
  lemma {:induction false} DedupExtends(a: seq<string>, b: seq<string>)
    ensures Dedup(a) <= Dedup(a + b)
  {
    if b != [] {
      var init := b[..|b| - 1];
      assert (a + b)[..|a + b| - 1] == a + init;
      DedupExtends(a, init);
    } else {
      assert a + b == a;
    }
  }

  /** A list without duplicates is its own de-duplication. */
  lemma {:induction false} DedupOfDistinct(s: seq<string>)
    requires NoDuplicates(s)
    ensures Dedup(s) == s
  {
    if s != [] {
      var init, last := s[..|s| - 1], s[|s| - 1];
      DedupOfDistinct(init);
      assert last !in init;
    }
  }

  /**
   * The rewritten `matches`: `added` alone when `unset` holds, otherwise the
   * existing matches followed by the added ones, de-duplicated.
   */
  function MergeMatches(existing: seq<string>, added: seq<string>, unset: bool): (r: seq<string>)
    ensures NoDuplicates(r)
    ensures !unset ==> forall x :: x in r <==> x in existing || x in added
    ensures !unset ==> Dedup(existing) <= r
    ensures !unset ==> forall i, j :: 0 <= i < j < |r| ==>
      FirstIndex(existing + added, r[i]) < FirstIndex(existing + added, r[j])
    ensures unset ==> forall x :: x in r <==> x in added
    ensures unset ==> forall i, j :: 0 <= i < j < |r| ==> FirstIndex(added, r[i]) < FirstIndex(added, r[j])
    ensures unset ==> r == Dedup(added)
  {
    if unset then
      DedupKeepsFirstOccurrenceOrder(added);
      Dedup(added)
    else
      DedupExtends(existing, added);
      DedupKeepsFirstOccurrenceOrder(existing + added);
      Dedup(existing + added)
  }

  /** `matches.some((match) => match.includes(origin))` */
  function IsAuthorized(matches: seq<string>, origin: string): (r: bool)
    ensures r <==> exists i :: 0 <= i < |matches| && Includes(matches[i], origin)
  {
    if matches == [] then false
    else if Includes(matches[0], origin) then true
    else
      var r := IsAuthorized(matches[1..], origin);
      assert forall i :: 1 <= i < |matches| ==> matches[i] == matches[1..][i - 1];
      r
  }

  /** The pattern an origin is approved with (the origin followed by a slash and a star), merged in, authorises that origin. */
  lemma ApprovedOriginIsAuthorized(existing: seq<string>, origin: string)
    ensures IsAuthorized(MergeMatches(existing, [origin + "/*"], false), origin)
  {
    var merged := MergeMatches(existing, [origin + "/*"], false);
    OccursBetween([], origin, "/*");
    assert [] + (origin + "/*") == origin + "/*";
    var i :| 0 <= i < |merged| && merged[i] == origin + "/*";
    assert Includes(merged[i], origin);
  }

  /** Merging without `unset` never withdraws an authorisation. */
  lemma MergeKeepsAuthorized(existing: seq<string>, added: seq<string>, origin: string)
    requires IsAuthorized(existing, origin)
    ensures IsAuthorized(MergeMatches(existing, added, false), origin)
  {
    var merged := MergeMatches(existing, added, false);
    var i :| 0 <= i < |existing| && Includes(existing[i], origin);
    assert existing[i] in merged;
    var j :| 0 <= j < |merged| && merged[j] == existing[i];
    assert Includes(merged[j], origin);
  }

  /**
   * The test is a substring test, not a pattern match: whatever authorises an
   * origin also authorises every prefix of it.
   */
  lemma PrefixOfAuthorizedIsAuthorized(matches: seq<string>, origin: string, p: string)
    requires IsAuthorized(matches, origin) && p <= origin
    ensures IsAuthorized(matches, p)
  {
    var i :| 0 <= i < |matches| && Includes(matches[i], origin);
    var k :| OccursAt(matches[i], origin, k);
    assert OccursAt(matches[i], p, k);
    assert Includes(matches[i], p);
  }

  /** So a pattern for `https://example.com` lets in `https://example.co`. */
  lemma SubstringTestAdmitsPrefixOrigin()
    ensures IsAuthorized(["https://example.com/*"], "https://example.co")
  {
    OccursBetween([], "https://example.com", "/*");
    assert [] + ("https://example.com" + "/*") == "https://example.com/*";
    PrefixOfAuthorizedIsAuthorized(["https://example.com/*"], "https://example.com", "https://example.co");
  }
}
