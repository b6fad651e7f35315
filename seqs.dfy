/** Sequence operations the bot borrows from Python's `list` and `collections.deque`. */
module Seqs {

  /** `lst.count(x)`: how many elements of `s` equal `x`. */
  function Count<T(==)>(s: seq<T>, x: T): (n: nat)
    ensures n == multiset(s)[x]
    ensures n <= |s|
    ensures n > 0 <==> x in s
  {
    if s == [] then 0
    else
      assert s == [s[0]] + s[1..];
      (if s[0] == x then 1 else 0) + Count(s[1..], x)
  }

  lemma {:induction false} CountAppend<T>(a: seq<T>, b: seq<T>, x: T)
    ensures Count(a + b, x) == Count(a, x) + Count(b, x)
  {
    assert multiset(a + b) == multiset(a) + multiset(b);
  }

  /** Being a prefix is transitive. */
  lemma PrefixTrans<T>(a: seq<T>, b: seq<T>, c: seq<T>)
    requires a <= b && b <= c
    ensures a <= c
  {
    assert c[..|a|] == c[..|b|][..|a|];
  }

  /**
   * What a `deque(maxlen=n)` keeps of the elements appended to it in order:
   * the last `n`, the oldest ones evicted first.
   */
  function KeepLast<T>(s: seq<T>, n: nat): (r: seq<T>)
    ensures |r| == if |s| <= n then |s| else n
    ensures forall i :: 0 <= i < |r| ==> r[i] == s[|s| - |r| + i]
  {
    if |s| <= n then s else s[|s| - n..]
  }

  /** Evicting after each append is the same as keeping the last `n` at the end. */
  lemma KeepLastAppend<T>(a: seq<T>, b: seq<T>, n: nat)
    ensures KeepLast(KeepLast(a, n) + b, n) == KeepLast(a + b, n)
  {
    if |a| > n {
      var j := |a| - n;
      assert KeepLast(a, n) + b == (a + b)[j..];
      assert (a + b)[j..][|b|..] == (a + b)[j + |b|..];
    }
  }

  /** A deque holding no more than `n` elements is left as it is by the bound. */
  lemma KeepLastShort<T>(s: seq<T>, n: nat)
    requires |s| <= n
    ensures KeepLast(s, n) == s
  {
  }
}
