/** Matching a command in the first line of an HTTP request: the controller
    asks whether the line contains a fixed marker, by searching for its first
    occurrence and comparing the position with -1. */
module Request {

  /** p occurs in s starting at position i. */
  predicate OccursAt(s: string, p: string, i: nat)
  {
    i + |p| <= |s| && s[i..i + |p|] == p
  }

  /** The first position at or after k where p occurs in s, or -1 if none. */
  function IndexOfFrom(s: string, p: string, k: nat): (r: int)
    ensures r == -1 || (k <= r && OccursAt(s, p, r))
    ensures forall i :: k <= i && (r == -1 || i < r) ==> !OccursAt(s, p, i)
    decreases |s| - k
  {
    if |s| < k + |p| then -1
    else if s[k..k + |p|] == p then k
    else IndexOfFrom(s, p, k + 1)
  }

  /** The first position where p occurs in s, or -1 if it does not occur. */
  function IndexOf(s: string, p: string): int
  {
    IndexOfFrom(s, p, 0)
  }

  /** The request line contains the marker exactly when the search does not
      answer -1. */
  lemma ContainsIff(s: string, p: string)
    ensures IndexOf(s, p) != -1 <==> exists i: nat :: OccursAt(s, p, i)
  {
    if IndexOf(s, p) != -1 {
      var i: nat := IndexOf(s, p);
      assert OccursAt(s, p, i);
    }
  }
}
