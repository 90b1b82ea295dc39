/**
 * `extractSessionId`: the one-time session id carried by an auth callback
 * URL, found by two regular expressions tried in turn, `#session_id=([^&]+)`
 * and then `[?&]session_id=([^&]+)`. Plain left-to-right scanning, not URI
 * parsing.
 */
module SessionUrl {
  import opened Common

  /** Both patterns are 12 characters long before the captured value. */
  const KeyLength: nat := 12

  /** Which of the two patterns. */
  datatype Form = Fragment | Query

  /**
   * The pattern `f` matches at index `i`: its 12 literal characters are there
   * and at least one character other than `&` follows them.
   */
  predicate MatchAt(url: string, f: Form, i: nat)
  {
    && i + KeyLength < |url|
    && url[i + KeyLength] != '&'
    && match f
       case Fragment => url[i..i + KeyLength] == "#session_id="
       case Query => (url[i] == '?' || url[i] == '&') && url[i + 1..i + KeyLength] == "session_id="
  }

  /** `[^&]+` taken greedily: the longest prefix of `s` without `&`. */
  function Run(s: string): (r: string)
    ensures |r| <= |s| && r == s[..|r|]
    ensures forall k :: 0 <= k < |r| ==> r[k] != '&'
    ensures |r| == |s| || s[|r|] == '&'
  {
    if s == [] || s[0] == '&' then [] else [s[0]] + Run(s[1..])
  }

  /** The leftmost match of `f` at or after `from`, as a regular expression search finds it. */
  function FirstMatch(url: string, f: Form, from: nat): (r: Option<nat>)
    ensures r.Some? ==> from <= r.value && MatchAt(url, f, r.value)
    ensures r.Some? ==> forall j :: from <= j < r.value ==> !MatchAt(url, f, j)
    ensures r.None? ==> forall j: nat :: from <= j ==> !MatchAt(url, f, j)
    decreases |url| - from
  {
    if from + KeyLength >= |url| then None
    else if MatchAt(url, f, from) then Some(from)
    else FirstMatch(url, f, from + 1)
  }

  /** The value captured by a match at `i`. */
  function CaptureAt(url: string, i: nat): string
    requires i + KeyLength <= |url|
  {
    Run(url[i + KeyLength..])
  }

  /**
   * The session id of `url`: the fragment form anywhere in the URL wins over
   * the query form, and the value is a non-empty run of characters other
   * than `&`, ended by `&` or by the end of the URL.
   */
  function ExtractSessionId(url: string): (r: Option<string>)
    ensures r.Some? ==> r.value != [] && forall k :: 0 <= k < |r.value| ==> r.value[k] != '&'
  {
    match FirstMatch(url, Fragment, 0)
    case Some(i) => Some(CaptureAt(url, i))
    case None =>
      match FirstMatch(url, Query, 0)
      case Some(i) => Some(CaptureAt(url, i))
      case None => None
  }

  /** There is an id exactly when one of the two patterns matches somewhere. */
  lemma FoundIffMatch(url: string)
    ensures ExtractSessionId(url).Some? <==>
      (exists i: nat :: MatchAt(url, Fragment, i)) || (exists i: nat :: MatchAt(url, Query, i))
  {
    var h := FirstMatch(url, Fragment, 0);
    var q := FirstMatch(url, Query, 0);
    if h.Some? {
      assert MatchAt(url, Fragment, h.value);
    } else if q.Some? {
      assert MatchAt(url, Query, q.value);
    }
  }

  /**
   * The leftmost fragment match decides the id, whatever query matches the
   * URL also holds, before it or after it.
   */
  lemma FragmentWins(url: string, i: nat)
    requires MatchAt(url, Fragment, i)
    requires forall j :: 0 <= j < i ==> !MatchAt(url, Fragment, j)
    ensures i + KeyLength <= |url|
    ensures ExtractSessionId(url) == Some(CaptureAt(url, i))
  {
    var h := FirstMatch(url, Fragment, 0);
    assert h == Some(i);
  }

  /**
   * Without any fragment match, the leftmost `?session_id=` or `&session_id=`
   * decides the id.
   */
  lemma QueryFallback(url: string, i: nat)
    requires forall j: nat :: !MatchAt(url, Fragment, j)
    requires MatchAt(url, Query, i)
    requires forall j :: 0 <= j < i ==> !MatchAt(url, Query, j)
    ensures i + KeyLength <= |url|
    ensures ExtractSessionId(url) == Some(CaptureAt(url, i))
  {
    var h := FirstMatch(url, Fragment, 0);
    assert h == None;
    var q := FirstMatch(url, Query, 0);
    assert q == Some(i);
  }
}
