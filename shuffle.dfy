/** The Fisher–Yates `shuffleArray` that src/lib/youtube.ts, src/lib/youtube-cdn.ts and
    src/lib/videos.ts each define, with the same body, and use to pick a random element. */
module Shuffle {

  /** `s` with the elements at `i` and `j` exchanged. */
  function Swap<T>(s: seq<T>, i: nat, j: nat): (r: seq<T>)
    requires i < |s| && j < |s|
    ensures |r| == |s| && r[i] == s[j] && r[j] == s[i]
    ensures forall k :: 0 <= k < |s| && k != i && k != j ==> r[k] == s[k]
  {
    s[i := s[j]][j := s[i]]
  }

  /** The loop visits i = n-1, n-2, ..., 1 and draws j with 0 <= j <= i;
      `picks[k]` is the j drawn in the k-th iteration, when i = n-1-k. */
  predicate ValidPicks(picks: seq<nat>, n: nat)
  {
    |picks| < n && forall k :: 0 <= k < |picks| ==> picks[k] <= n - 1 - k
  }

  /** The array after the iterations recorded in `picks`. */
  function ApplyPicks<T>(s: seq<T>, picks: seq<nat>): (r: seq<T>)
    requires ValidPicks(picks, |s|)
    ensures |r| == |s|
    decreases |picks|
  {
    if picks == [] then s
    else
      var k := |picks| - 1;
      Swap(ApplyPicks(s, picks[..k]), |s| - 1 - k, picks[k])
  }

  /** Whatever the random draws, the shuffle is a permutation of its input. */
  lemma {:induction false} ApplyPicksPermutes<T>(s: seq<T>, picks: seq<nat>)
    requires ValidPicks(picks, |s|)
    ensures multiset(ApplyPicks(s, picks)) == multiset(s)
    decreases |picks|
  {
    if picks != [] {
      var k := |picks| - 1;
      var before := ApplyPicks(s, picks[..k]);
      ApplyPicksPermutes(s, picks[..k]);
      SwapPermutes(before, |s| - 1 - k, picks[k]);
    }
  }

  lemma SwapPermutes<T>(s: seq<T>, i: nat, j: nat)
    requires i < |s| && j < |s|
    ensures multiset(Swap(s, i, j)) == multiset(s)
  {
    var t := s[i := s[j]];
    assert multiset(t) == multiset(s) - multiset{s[i]} + multiset{s[j]};
    assert multiset(t[j := s[i]]) == multiset(t) - multiset{t[j]} + multiset{s[i]};
  }

  /** `shuffleArray(array)`: copies the input, then for i from n-1 down to 1 swaps
      position i with a position j drawn from 0..i. `Math.random` is a nondeterministic
      choice of j; `picks` records the draws. The input is a value, so it is left as it was. */
  method ShuffleArray<T>(s: seq<T>) returns (shuffled: seq<T>, ghost picks: seq<nat>)
    ensures ValidPicks(picks, |s|) || s == []
    ensures |picks| == if |s| <= 1 then 0 else |s| - 1
    ensures |shuffled| == |s| && multiset(shuffled) == multiset(s)
    ensures s != [] ==> shuffled == ApplyPicks(s, picks)
  {
    picks := [];
    if |s| == 0 {
      return s, picks;
    }
    var a := new T[|s|](k requires 0 <= k < |s| => s[k]);
    var i := a.Length - 1;
    while i > 0
      invariant 0 <= i < a.Length
      invariant ValidPicks(picks, |s|) && |picks| == |s| - 1 - i
      invariant a[..] == ApplyPicks(s, picks)
    {
      var j :| 0 <= j <= i;
      ghost var prev := picks;
      a[i], a[j] := a[j], a[i];
      picks := picks + [j];
      assert picks[..|picks| - 1] == prev;
      i := i - 1;
    }
    shuffled := a[..];
    ApplyPicksPermutes(s, picks);
  }
}
