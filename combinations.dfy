/**
 * `combinations(arr, k)`: the k-element selections of a list, each kept in
 * the list's order, enumerated by the recursion of the source: for each
 * starting index i in [0, |arr| - k], arr[i] followed by every
 * (k-1)-selection of arr[i+1..].
 */
module Selections {

  /** c can be obtained from s by deleting elements (order kept). */
  ghost predicate IsSubseq<T>(c: seq<T>, s: seq<T>)
    decreases |s|
  {
    if c == [] then true
    else if s == [] then false
    else (c[0] == s[0] && IsSubseq(c[1..], s[1..])) || IsSubseq(c, s[1..])
  }

  /** arr.map(a => [a]) */
  function Singletons<T>(arr: seq<T>): (r: seq<seq<T>>)
    ensures |r| == |arr|
  {
    seq(|arr|, i requires 0 <= i < |arr| => [arr[i]])
  }

  /** [x] prepended to every element of rest, in order. */
  function Extend<T>(x: T, rest: seq<seq<T>>): (r: seq<seq<T>>)
    ensures |r| == |rest|
  {
    seq(|rest|, m requires 0 <= m < |rest| => [x] + rest[m])
  }

  function Combinations<T>(arr: seq<T>, k: int): seq<seq<T>>
    decreases |arr|, 1
  {
    if k > |arr| || k <= 0 then []
    else if k == |arr| then [arr]
    else if k == 1 then Singletons(arr)
    else CombUpTo(arr, k, |arr| - k + 1)
  }

  /** What the outer loop has collected after its first i iterations. */
  function CombUpTo<T>(arr: seq<T>, k: int, i: int): seq<seq<T>>
    requires 2 <= k && 0 <= i <= |arr| - k + 1
    decreases |arr|, 0, i
  {
    if i == 0 then []
    else CombUpTo(arr, k, i - 1) + Extend(arr[i - 1], Combinations(arr[i..], k - 1))
  }

  /** Binomial coefficient C(n, k), by Pascal's rule. */
  function Binom(n: nat, k: nat): nat
  {
    if k == 0 then 1 else if n == 0 then 0 else Binom(n - 1, k - 1) + Binom(n - 1, k)
  }

  /** The guards of the source: nothing outside 1..|arr|, the list itself for k = |arr|. */
  lemma CombinationsEdges<T>(arr: seq<T>, k: int)
    ensures k <= 0 || k > |arr| ==> Combinations(arr, k) == []
    ensures 1 <= k == |arr| ==> Combinations(arr, k) == [arr]
  {
  }

  lemma {:induction false} BinomAbove(n: nat, k: nat)
    requires k > n
    ensures Binom(n, k) == 0
  {
    if n > 0 {
      BinomAbove(n - 1, k - 1);
      BinomAbove(n - 1, k);
    }
  }

  lemma {:induction false} BinomDiagonal(n: nat)
    ensures Binom(n, n) == 1
  {
    if n > 0 {
      BinomDiagonal(n - 1);
      BinomAbove(n - 1, n);
    }
  }

  lemma {:induction false} BinomOne(n: nat)
    ensures Binom(n, 1) == n
  {
    if n > 0 {
      BinomOne(n - 1);
    }
  }

  /** There are C(|arr|, k) selections for every k >= 1. */
  lemma {:induction false} CombinationsCount<T>(arr: seq<T>, k: int)
    requires k >= 1
    ensures |Combinations(arr, k)| == Binom(|arr|, k)
    decreases |arr|, 1
  {
    if k > |arr| {
      BinomAbove(|arr|, k);
    } else if k == |arr| {
      BinomDiagonal(|arr|);
    } else if k == 1 {
      BinomOne(|arr|);
    } else {
      CombUpToCount(arr, k, |arr| - k + 1);
      BinomAbove(k - 1, k);
    }
  }

  lemma {:induction false} CombUpToCount<T>(arr: seq<T>, k: int, i: int)
    requires 2 <= k && 0 <= i <= |arr| - k + 1
    ensures |CombUpTo(arr, k, i)| == Binom(|arr|, k) - Binom(|arr| - i, k)
    decreases |arr|, 0, i
  {
    if i > 0 {
      CombUpToCount(arr, k, i - 1);
      CombinationsCount(arr[i..], k - 1);
      assert Binom(|arr| - i + 1, k) == Binom(|arr| - i, k - 1) + Binom(|arr| - i, k);
    }
  }

  lemma {:induction false} SubseqOfSuffix<T>(c: seq<T>, s: seq<T>, j: nat)
    requires j <= |s| && IsSubseq(c, s[j..])
    ensures IsSubseq(c, s)
    decreases j
  {
    if j > 0 {
      assert s[j - 1..][1..] == s[j..];
      assert IsSubseq(c, s[j - 1..]);
      SubseqOfSuffix(c, s, j - 1);
    }
  }

  lemma {:induction false} SubseqLength<T>(c: seq<T>, s: seq<T>)
    requires IsSubseq(c, s)
    ensures |c| <= |s|
    decreases |s|
  {
    if c != [] {
      if c[0] == s[0] && IsSubseq(c[1..], s[1..]) {
        SubseqLength(c[1..], s[1..]);
      } else {
        SubseqLength(c, s[1..]);
      }
    }
  }

  lemma {:induction false} SubseqFullLength<T>(c: seq<T>, s: seq<T>)
    requires IsSubseq(c, s) && |c| == |s|
    ensures c == s
    decreases |s|
  {
    if c != [] {
      if c[0] == s[0] && IsSubseq(c[1..], s[1..]) {
        SubseqFullLength(c[1..], s[1..]);
        assert c == [c[0]] + c[1..];
        assert s == [s[0]] + s[1..];
      } else {
        SubseqLength(c, s[1..]);
      }
    }
  }

  /** A non-empty selection starts at some position j and continues in s[j+1..]. */
  lemma {:induction false} SubseqHead<T>(c: seq<T>, s: seq<T>) returns (j: nat)
    requires IsSubseq(c, s) && c != []
    ensures j < |s| && c[0] == s[j] && IsSubseq(c[1..], s[j + 1..])
    decreases |s|
  {
    if c[0] == s[0] && IsSubseq(c[1..], s[1..]) {
      j := 0;
    } else {
      var j' := SubseqHead(c, s[1..]);
      assert s[1..][j' + 1..] == s[j' + 2..];
      j := j' + 1;
    }
  }

  /** Every enumerated selection has k elements and is a subsequence of arr. */
  lemma {:induction false} CombinationShape<T>(arr: seq<T>, k: int, m: int)
    requires 0 <= m < |Combinations(arr, k)|
    ensures |Combinations(arr, k)[m]| == k && IsSubseq(Combinations(arr, k)[m], arr)
    decreases |arr|, 1
  {
    var c := Combinations(arr, k)[m];
    if k == |arr| {
      SelfSubseq(arr);
    } else if k == 1 {
      assert c == [arr[m]];
      assert IsSubseq(c[1..], arr[m + 1..]);
      assert arr[m..][1..] == arr[m + 1..];
      assert IsSubseq(c, arr[m..]);
      SubseqOfSuffix(c, arr, m);
    } else {
      CombUpToShape(arr, k, |arr| - k + 1, m);
    }
  }

  lemma {:induction false} CombUpToShape<T>(arr: seq<T>, k: int, i: int, m: int)
    requires 2 <= k && 0 <= i <= |arr| - k + 1
    requires 0 <= m < |CombUpTo(arr, k, i)|
    ensures |CombUpTo(arr, k, i)[m]| == k && IsSubseq(CombUpTo(arr, k, i)[m], arr)
    decreases |arr|, 0, i
  {
    var prev := CombUpTo(arr, k, i - 1);
    var rest := Combinations(arr[i..], k - 1);
    if m < |prev| {
      CombUpToShape(arr, k, i - 1, m);
    } else {
      var m' := m - |prev|;
      var c := CombUpTo(arr, k, i)[m];
      assert c == [arr[i - 1]] + rest[m'];
      CombinationShape(arr[i..], k - 1, m');
      assert c[1..] == rest[m'];
      assert arr[i - 1..][1..] == arr[i..];
      assert IsSubseq(c, arr[i - 1..]);
      SubseqOfSuffix(c, arr, i - 1);
    }
  }

  lemma {:induction false} SelfSubseq<T>(s: seq<T>)
    ensures IsSubseq(s, s)
    decreases |s|
  {
    if s != [] {
      SelfSubseq(s[1..]);
    }
  }

  /** Conversely, every k-element subsequence of arr is enumerated. */
  lemma {:induction false} CombinationsComplete<T>(arr: seq<T>, k: int, c: seq<T>)
    requires 1 <= k && |c| == k && IsSubseq(c, arr)
    ensures c in Combinations(arr, k)
    decreases |arr|, 1
  {
    SubseqLength(c, arr);
    if k == |arr| {
      SubseqFullLength(c, arr);
    } else if k == 1 {
      var j := SubseqHead(c, arr);
      assert c == [arr[j]];
      assert Singletons(arr)[j] == c;
    } else {
      var j := SubseqHead(c, arr);
      SubseqLength(c[1..], arr[j + 1..]);
      CombinationsComplete(arr[j + 1..], k - 1, c[1..]);
      var rest := Combinations(arr[j + 1..], k - 1);
      var m :| 0 <= m < |rest| && rest[m] == c[1..];
      assert c == [c[0]] + c[1..];
      assert Extend(arr[j], rest)[m] == c;
      assert c in CombUpTo(arr, k, j + 1);
      CombUpToGrows(arr, k, j + 1, |arr| - k + 1, c);
    }
  }

  lemma {:induction false} CombUpToGrows<T>(arr: seq<T>, k: int, i: int, i': int, c: seq<T>)
    requires 2 <= k && 0 <= i <= i' <= |arr| - k + 1
    requires c in CombUpTo(arr, k, i)
    ensures c in CombUpTo(arr, k, i')
    decreases i' - i
  {
    if i < i' {
      CombUpToGrows(arr, k, i, i' - 1, c);
    }
  }

  /** The source's loop: outer index i, recursive call, inner loop pushing [arr[i], ...comb]. */
  method CollectCombinations<T>(arr: seq<T>, k: int) returns (result: seq<seq<T>>)
    ensures result == Combinations(arr, k)
    decreases |arr|
  {
    result := [];
    if k > |arr| || k <= 0 {
      return;
    }
    if k == |arr| {
      return [arr];
    }
    if k == 1 {
      return Singletons(arr);
    }
    var i := 0;
    while i < |arr| - k + 1
      invariant 0 <= i <= |arr| - k + 1
      invariant result == CombUpTo(arr, k, i)
    {
      var rest := CollectCombinations(arr[i + 1..], k - 1);
      var m := 0;
      while m < |rest|
        invariant 0 <= m <= |rest|
        invariant result == CombUpTo(arr, k, i) + Extend(arr[i], rest[..m])
      {
        assert Extend(arr[i], rest[..m + 1]) == Extend(arr[i], rest[..m]) + [[arr[i]] + rest[m]];
        result := result + [[arr[i]] + rest[m]];
        m := m + 1;
      }
      assert rest[..m] == rest;
      i := i + 1;
    }
  }
}
