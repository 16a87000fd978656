/** The sliding window of flow samples, as a value: the logical contents of
    the ring buffer oldest first, what appending does to them, and their
    average. The in-place ring buffer in module Ring is proved against these
    definitions. */
module Window {

  /** The last n elements of s (all of s when it is shorter). */
  function LastN(s: seq<real>, n: nat): (r: seq<real>)
    ensures |r| == if |s| <= n then |s| else n
    ensures r == s[|s| - |r|..]
  {
    if |s| <= n then s else s[|s| - n..]
  }

  /** Appending one sample to a window of capacity cap: while there is room
      the sample is added at the end, once full the oldest sample is evicted. */
  function Append(w: seq<real>, x: real, cap: nat): (r: seq<real>)
    requires 0 < cap && |w| <= cap
    ensures |r| == if |w| < cap then |w| + 1 else cap
    ensures r[|r| - 1] == x
    ensures |w| < cap ==> r == w + [x]
  {
    if |w| < cap then w + [x] else w[1..] + [x]
  }

  /** The window after an append is the last cap samples of the old window
      followed by the new sample. */
  lemma AppendIsLastN(w: seq<real>, x: real, cap: nat)
    requires 0 < cap && |w| <= cap
    ensures Append(w, x, cap) == LastN(w + [x], cap)
  {
  }

  /** Appending the samples xs one after another, first to last. */
  function AppendAll(w: seq<real>, xs: seq<real>, cap: nat): (r: seq<real>)
    requires 0 < cap && |w| <= cap
    ensures |r| <= cap
  {
    if xs == [] then w
    else Append(AppendAll(w, xs[..|xs| - 1], cap), xs[|xs| - 1], cap)
  }

  /** FIFO: after appending xs to a window w, the window holds exactly the
      last cap samples of w followed by xs, oldest first. */
  lemma {:induction false} AppendAllIsLastN(w: seq<real>, xs: seq<real>, cap: nat)
    requires 0 < cap && |w| <= cap
    ensures AppendAll(w, xs, cap) == LastN(w + xs, cap)
  {
    if xs == [] {
      assert w + xs == w;
    } else {
      var init, x := xs[..|xs| - 1], xs[|xs| - 1];
      AppendAllIsLastN(w, init, cap);
      assert AppendAll(w, xs, cap) == Append(AppendAll(w, init, cap), x, cap);
      AppendIsLastN(AppendAll(w, init, cap), x, cap);
      LastNOfLastN(w + init, x, cap);
      assert (w + init) + [x] == w + xs;
    }
  }

  lemma LastNOfLastN(s: seq<real>, x: real, n: nat)
    requires 0 < n
    ensures LastN(LastN(s, n) + [x], n) == LastN(s + [x], n)
  {
    if n <= |s| {
      var k := |s| - n;
      assert LastN(s, n) + [x] == s[k..] + [x] == (s + [x])[k..];
      assert ((s + [x])[k..])[1..] == (s + [x])[k + 1..];
    }
  }

  /** Sum of the samples, accumulated first to last. */
  function Sum(s: seq<real>): real
  {
    if s == [] then 0.0 else Sum(s[..|s| - 1]) + s[|s| - 1]
  }

  /** The arithmetic mean; the empty window has none. */
  function Mean(s: seq<real>): real
    requires 0 < |s|
  {
    Sum(s) / (|s| as real)
  }

  /** Every sample at most m bounds the sum by |s| * m. */
  lemma {:induction false} SumAtMost(s: seq<real>, m: real)
    requires forall i :: 0 <= i < |s| ==> s[i] <= m
    ensures Sum(s) <= (|s| as real) * m
  {
    if s != [] {
      var init := s[..|s| - 1];
      SumAtMost(init, m);
      assert (|s| as real) * m == (|init| as real) * m + m;
    }
  }

  /** Every sample above m puts the sum above |s| * m. */
  lemma {:induction false} SumAbove(s: seq<real>, m: real)
    requires 0 < |s|
    requires forall i :: 0 <= i < |s| ==> s[i] > m
    ensures Sum(s) > (|s| as real) * m
  {
    var init := s[..|s| - 1];
    if init != [] {
      SumAbove(init, m);
    }
    assert (|s| as real) * m == (|init| as real) * m + m;
  }

  /** Every sample of the window is at most m. */
  predicate AllAtMost(s: seq<real>, m: real)
  {
    forall i :: 0 <= i < |s| ==> s[i] <= m
  }

  /** Appending a sample at most m keeps every sample at most m. */
  lemma AppendAtMost(w: seq<real>, x: real, cap: nat, m: real)
    requires 0 < cap && |w| <= cap
    requires AllAtMost(w, m) && x <= m
    ensures AllAtMost(Append(w, x, cap), m)
  {
  }

  /** A window whose samples are all at most m has a mean at most m. */
  lemma MeanAtMost(s: seq<real>, m: real)
    requires 0 < |s| && AllAtMost(s, m)
    ensures Mean(s) <= m
  {
    SumAtMost(s, m);
    DivideBound(Sum(s), |s| as real, m);
  }

  /** A window whose samples are all above m has a mean above m. */
  lemma MeanAbove(s: seq<real>, m: real)
    requires 0 < |s|
    requires forall i :: 0 <= i < |s| ==> s[i] > m
    ensures Mean(s) > m
  {
    SumAbove(s, m);
    DivideBound(Sum(s), |s| as real, m);
  }

  lemma DivideBound(a: real, n: real, m: real)
    requires 0.0 < n
    ensures a <= n * m ==> a / n <= m
    ensures a > n * m ==> a / n > m
  {
    assert a == (a / n) * n;
  }
}
