/** Sequence helpers shared by the two bounded message lists. */
module Seqs {

  function Min(a: int, b: int): int { if a <= b then a else b }

  function Max(a: int, b: int): int { if a <= b then b else a }

  /** The first `n` elements of `s`, or all of them: JavaScript's `s.slice(0, n)` for `n >= 0`. */
  function Take<T>(s: seq<T>, n: nat): (r: seq<T>)
    ensures |r| == Min(n, |s|)
  {
    s[..Min(n, |s|)]
  }

  /** The last `n` elements of `s`, or all of them: JavaScript's `s.slice(-n)` for `n > 0`. */
  function TakeLast<T>(s: seq<T>, n: nat): (r: seq<T>)
    ensures |r| == Min(n, |s|)
  {
    s[Max(|s| - n, 0)..]
  }

  function Reversed<T>(s: seq<T>): (r: seq<T>)
    ensures |r| == |s|
  {
    if s == [] then [] else Reversed(s[1..]) + [s[0]]
  }

  /** Truncating twice to the same bound is truncating once. */
  lemma TakeOfTake<T>(a: seq<T>, b: seq<T>, n: nat)
    ensures Take(a + Take(b, n), n) == Take(a + b, n)
  {
    var ab, m := a + b, Min(n, |b|);
    assert a + Take(b, n) == ab[..|a| + m];
    assert Take(ab[..|a| + m], n) == ab[..|a| + m][..Min(n, |a| + m)];
    assert ab[..|a| + m][..Min(n, |a| + m)] == ab[..Min(n, |ab|)];
  }

  /** Keeping the last `n` twice, with more appended in between, is keeping the last `n` once. */
  lemma TakeLastOfTakeLast<T>(a: seq<T>, b: seq<T>, n: nat)
    ensures TakeLast(TakeLast(a, n) + b, n) == TakeLast(a + b, n)
  {
    var ab, p := a + b, Max(|a| - n, 0);
    assert TakeLast(a, n) + b == ab[p..];
    var q := Max(|ab| - p - n, 0);
    assert TakeLast(ab[p..], n) == ab[p..][q..];
    assert ab[p..][q..] == ab[p + q..];
  }

  /** One more element at the end, with room for one more, is kept after the last `n`. */
  lemma TakeLastSnoc<T>(a: seq<T>, x: T, n: nat)
    ensures TakeLast(a + [x], n + 1) == TakeLast(a, n) + [x]
  {
    var p := Max(|a| - n, 0);
    assert (a + [x])[p..] == a[p..] + [x];
  }

  /** A prefix of a prefix is a prefix, and what the longer one adds splits at the middle one. */
  lemma PrefixOfPrefix<T>(a: seq<T>, b: seq<T>, c: seq<T>)
    requires |a| <= |b| <= |c| && b[..|a|] == a && c[..|b|] == b
    ensures c[..|a|] == a
    ensures c[|a|..] == b[|a|..] + c[|b|..]
  {
    assert c[..|a|] == c[..|b|][..|a|];
  }

  /** Reversing the first `n` elements gives the last `n` of the reversal. */
  lemma {:induction false} ReversedTake<T>(s: seq<T>, n: nat)
    ensures Reversed(Take(s, n)) == TakeLast(Reversed(s), n)
    decreases |s|
  {
    if s == [] || n == 0 {
      assert Take(s, n) == [];
      assert TakeLast(Reversed(s), n) == [];
    } else {
      var t := Take(s[1..], n - 1);
      assert Take(s, n) == [s[0]] + t;
      assert ([s[0]] + t)[1..] == t;
      ReversedTake(s[1..], n - 1);
      TakeLastSnoc(Reversed(s[1..]), s[0], n - 1);
    }
  }
}
