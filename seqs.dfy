/** Sequence operations the JavaScript code uses (`filter`, `slice`, `find`,
    `reverse`) and facts about them. */
module Seqs {
  import opened Wrappers

  /** `Array.prototype.filter`. */
  function Filter<T(==,!new)>(s: seq<T>, p: T -> bool): (r: seq<T>)
    ensures |r| <= |s|
    ensures forall x :: x in r <==> x in s && p(x)
  {
    if s == [] then []
    else if p(s[0]) then [s[0]] + Filter(s[1..], p)
    else Filter(s[1..], p)
  }

  /** `a` is obtained from `b` by deleting elements (order is kept). */
  predicate IsSubsequence<T(==)>(a: seq<T>, b: seq<T>)
    decreases |b|
  {
    a == [] || (b != [] && (if a[0] == b[0] then IsSubsequence(a[1..], b[1..]) else IsSubsequence(a, b[1..])))
  }

  /** `s.slice(0, n)`. */
  function Take<T>(s: seq<T>, n: nat): (r: seq<T>)
    ensures |r| == if |s| < n then |s| else n
    ensures forall i :: 0 <= i < |r| ==> r[i] == s[i]
  {
    if |s| <= n then s else s[..n]
  }

  lemma {:induction false} FilterIsSubsequence<T(!new)>(s: seq<T>, p: T -> bool)
    ensures IsSubsequence(Filter(s, p), s)
    decreases |s|
  {
    if s != [] {
      FilterIsSubsequence(s[1..], p);
      if !p(s[0]) {
        SkipHead(Filter(s[1..], p), s);
      }
    }
  }

  lemma {:induction false} SkipHead<T>(a: seq<T>, b: seq<T>)
    requires b != [] && IsSubsequence(a, b[1..])
    ensures IsSubsequence(a, b)
    decreases |a| + |b|
  {
    if a != [] && a[0] == b[0] {
      SubsequenceTail(a, b[1..]);
    }
  }

  lemma {:induction false} SubsequenceTail<T>(a: seq<T>, b: seq<T>)
    requires a != [] && IsSubsequence(a, b)
    ensures IsSubsequence(a[1..], b)
    decreases |a| + |b|
  {
    if a[0] == b[0] {
      SkipHead(a[1..], b);
    } else {
      SubsequenceTail(a, b[1..]);
      SkipHead(a[1..], b);
    }
  }

  /** A prefix of a subsequence is again a subsequence. */
  lemma {:induction false} PrefixOfSubsequence<T>(a: seq<T>, b: seq<T>, n: nat)
    requires n <= |a| && IsSubsequence(a, b)
    ensures IsSubsequence(a[..n], b)
    decreases |b|
  {
    if n > 0 {
      assert a[..n][0] == a[0];
      if a[0] == b[0] {
        assert a[..n][1..] == a[1..][..n - 1];
        PrefixOfSubsequence(a[1..], b[1..], n - 1);
      } else {
        PrefixOfSubsequence(a, b[1..], n);
      }
    }
  }

  /** Keeping no element leaves nothing. */
  lemma {:induction false} FilterKeepsNone<T(!new)>(s: seq<T>, p: T -> bool)
    requires forall x :: x in s ==> !p(x)
    ensures Filter(s, p) == []
    decreases |s|
  {
    if s != [] {
      FilterKeepsNone(s[1..], p);
    }
  }

  /** Keeping every element leaves a sequence unchanged. */
  lemma {:induction false} FilterKeepsAll<T(!new)>(s: seq<T>, p: T -> bool)
    requires forall x :: x in s ==> p(x)
    ensures Filter(s, p) == s
    decreases |s|
  {
    if s != [] {
      FilterKeepsAll(s[1..], p);
    }
  }

  /** Filtering a sequence with one more element at the end filters the
      prefix and then keeps or drops that element. */
  lemma {:induction false} FilterAppend<T(!new)>(s: seq<T>, x: T, p: T -> bool)
    ensures Filter(s + [x], p) == Filter(s, p) + (if p(x) then [x] else [])
    decreases |s|
  {
    if s == [] {
      assert [] + [x] == [x];
    } else {
      assert (s + [x])[1..] == s[1..] + [x];
      FilterAppend(s[1..], x, p);
    }
  }

  /** `key` strictly increases along `s`. */
  predicate IncreasingBy<T>(s: seq<T>, key: T -> int) {
    forall i, j :: 0 <= i < j < |s| ==> key(s[i]) < key(s[j])
  }

  /** Filtering keeps the order of what it keeps. */
  lemma {:induction false} FilterKeepsIncreasing<T(!new)>(s: seq<T>, p: T -> bool, key: T -> int)
    ensures IncreasingBy(s, key) ==> IncreasingBy(Filter(s, p), key)
    decreases |s|
  {
    if s != [] && IncreasingBy(s, key) {
      assert IncreasingBy(s[1..], key);
      FilterKeepsIncreasing(s[1..], p, key);
      forall x | x in Filter(s[1..], p)
        ensures key(s[0]) < key(x)
      {
        var k :| 0 <= k < |s[1..]| && s[1..][k] == x;
        assert s[k + 1] == x;
      }
    }
  }

  /** Two tests that agree on every element filter a sequence alike. */
  lemma {:induction false} FilterAgrees<T(!new)>(s: seq<T>, p: T -> bool, q: T -> bool)
    requires forall x :: x in s ==> p(x) == q(x)
    ensures Filter(s, p) == Filter(s, q)
    decreases |s|
  {
    if s != [] {
      assert forall x :: x in s[1..] ==> x in s;
      FilterAgrees(s[1..], p, q);
    }
  }

  /** `Array.prototype.find`: the first element satisfying `p`. */
  function Find<T>(s: seq<T>, p: T -> bool): (r: Option<T>)
    ensures r.Some? ==> r.value in s && p(r.value)
    ensures r.None? <==> forall i :: 0 <= i < |s| ==> !p(s[i])
  {
    if s == [] then None
    else if p(s[0]) then Some(s[0])
    else Find(s[1..], p)
  }

  /** The first element satisfying `p` comes before every other one. */
  lemma {:induction false} FindIsFirst<T>(s: seq<T>, p: T -> bool, i: nat)
    requires i < |s| && p(s[i])
    ensures Find(s, p).Some?
    ensures exists j :: 0 <= j <= i && Find(s, p) == Some(s[j]) && forall k :: 0 <= k < j ==> !p(s[k])
    decreases i
  {
    if i > 0 && !p(s[0]) {
      FindIsFirst(s[1..], p, i - 1);
      var j :| 0 <= j <= i - 1 && Find(s[1..], p) == Some(s[1..][j]) && forall k :: 0 <= k < j ==> !p(s[1..][k]);
      assert Find(s, p) == Some(s[j + 1]);
      forall k | 0 <= k < j + 1
        ensures !p(s[k])
      {
        if k > 0 {
          assert s[k] == s[1..][k - 1];
        }
      }
    }
  }

  /** `Array.prototype.reverse` on a copy. */
  function Reverse<T(!new)>(s: seq<T>): (r: seq<T>)
    ensures |r| == |s|
    ensures forall i :: 0 <= i < |s| ==> r[i] == s[|s| - 1 - i]
    ensures forall x :: x in r <==> x in s
  {
    if s == [] then [] else Reverse(s[1..]) + [s[0]]
  }
  /** Reversing a sequence with growing keys gives one with shrinking keys. */
  lemma ReverseDecreasing<T(!new)>(s: seq<T>, key: T -> int)
    ensures IncreasingBy(s, key) ==>
      forall i, j :: 0 <= i < j < |Reverse(s)| ==> key(Reverse(s)[i]) > key(Reverse(s)[j])
  {
  }

  /** The first `n` of a sequence with shrinking keys hold its largest keys:
      everything left out has a smaller key than everything kept. */
  lemma TakeKeepsLargest<T(!new)>(s: seq<T>, n: nat, key: T -> int)
    ensures (forall i, j :: 0 <= i < j < |s| ==> key(s[i]) > key(s[j])) ==>
      forall x, y :: x in s && x !in Take(s, n) && y in Take(s, n) ==> key(x) < key(y)
  {
    var t := Take(s, n);
    if forall i, j :: 0 <= i < j < |s| ==> key(s[i]) > key(s[j]) {
      forall x, y | x in s && x !in t && y in t
        ensures key(x) < key(y)
      {
        var a :| 0 <= a < |s| && s[a] == x;
        var b :| 0 <= b < |t| && t[b] == y;
        assert forall k :: 0 <= k < |t| ==> t[k] != x;
      }
    }
  }

}
