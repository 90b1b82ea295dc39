/** The two Python string operations the backend applies to the Authorization header. */
module Strings {

  /** `p` occurs in `s` starting at index `i`. */
  predicate OccursAt(s: string, p: string, i: nat)
  {
    i + |p| <= |s| && s[i..i + |p|] == p
  }

  /** Python `s.startswith(p)`. */
  predicate StartsWith(s: string, p: string)
  {
    OccursAt(s, p, 0)
  }

  /** `p` occurs somewhere in `s`. */
  ghost predicate Occurs(s: string, p: string)
  {
    exists i: nat :: OccursAt(s, p, i)
  }

  /**
   * Python `s.replace(p, "")`: scan from the left and drop every
   * non-overlapping occurrence of `p`.
   */
  function RemoveAll(s: string, p: string): (r: string)
    requires p != ""
    ensures |r| <= |s|
    decreases |s|
  {
    if |s| < |p| then s
    else if s[..|p|] == p then RemoveAll(s[|p|..], p)
    else [s[0]] + RemoveAll(s[1..], p)
  }

  /** An occurrence of `p` in `s[1..]` is one in `s`, one place further on. */
  lemma OccursInTail(s: string, p: string, j: nat)
    requires |s| > 0 && OccursAt(s[1..], p, j)
    ensures OccursAt(s, p, j + 1)
  {
    assert s[j + 1..j + 1 + |p|] == s[1..][j..j + |p|];
  }

  /** A string without an occurrence of `p` comes back unchanged. */
  lemma {:induction false} RemoveAllAbsent(s: string, p: string)
    requires p != "" && !Occurs(s, p)
    ensures RemoveAll(s, p) == s
    decreases |s|
  {
    if |s| >= |p| {
      assert !OccursAt(s, p, 0);
      assert s[..|p|] != p;
      if Occurs(s[1..], p) {
        var j: nat :| OccursAt(s[1..], p, j);
        OccursInTail(s, p, j);
        assert false;
      }
      RemoveAllAbsent(s[1..], p);
      assert s == [s[0]] + s[1..];
    }
  }

  /** A string holding an occurrence of `p` gets strictly shorter. */
  lemma {:induction false} RemoveAllPresent(s: string, p: string)
    requires p != "" && Occurs(s, p)
    ensures |RemoveAll(s, p)| < |s|
    decreases |s|
  {
    var i: nat :| OccursAt(s, p, i);
    if s[..|p|] != p {
      assert i != 0;
      assert s[1..][i - 1..i - 1 + |p|] == s[i..i + |p|];
      assert OccursAt(s[1..], p, i - 1);
      RemoveAllPresent(s[1..], p);
    }
  }

  /** `RemoveAll` leaves `s` as it is exactly when `p` does not occur in it. */
  lemma RemoveAllIdentity(s: string, p: string)
    requires p != ""
    ensures RemoveAll(s, p) == s <==> !Occurs(s, p)
  {
    if Occurs(s, p) {
      RemoveAllPresent(s, p);
    } else {
      RemoveAllAbsent(s, p);
    }
  }

  /** A leading occurrence is dropped and scanning resumes right after it. */
  lemma RemoveAllPrefix(p: string, t: string)
    requires p != ""
    ensures RemoveAll(p + t, p) == RemoveAll(t, p)
  {
    assert (p + t)[..|p|] == p;
    assert (p + t)[|p|..] == t;
  }
}
