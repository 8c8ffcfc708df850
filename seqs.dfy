// Sequence helpers shared by the aggregator: sums, concatenation, counting,
// and "first index of the maximum", which is what both `Array.indexOf(Math.max(...))`
// and the `reduce((a, b) => b.score > a.score ? b : a)` idiom compute.

module Seqs {

  function Sum(s: seq<int>): int
  {
    if s == [] then 0 else s[0] + Sum(s[1..])
  }

  lemma {:induction false} SumAppend(a: seq<int>, b: seq<int>)
    ensures Sum(a + b) == Sum(a) + Sum(b)
  {
    if a == [] {
      assert a + b == b;
    } else {
      assert (a + b)[1..] == a[1..] + b;
      SumAppend(a[1..], b);
    }
  }

  /** Adding one to an element adds one to the sum. */
  lemma {:induction false} SumIncrement(s: seq<int>, i: nat)
    requires i < |s|
    ensures Sum(s[i := s[i] + 1]) == Sum(s) + 1
  {
    if i > 0 {
      assert s[i := s[i] + 1][1..] == s[1..][i - 1 := s[i] + 1];
      SumIncrement(s[1..], i - 1);
    }
  }

  /** A sum of `|s|` values, each at least `lo`, is at least `|s| * lo`. */
  lemma {:induction false} SumAtLeast(s: seq<int>, lo: int)
    requires forall i | 0 <= i < |s| :: lo <= s[i]
    ensures |s| * lo <= Sum(s)
  {
    if s != [] {
      var t := s[1..];
      forall i | 0 <= i < |t| ensures lo <= t[i] {
        assert t[i] == s[i + 1];
      }
      SumAtLeast(t, lo);
      assert |s| * lo == |t| * lo + lo;
    }
  }

  /** A sum of `|s|` values, each at most `hi`, is at most `|s| * hi`. */
  lemma {:induction false} SumAtMost(s: seq<int>, hi: int)
    requires forall i | 0 <= i < |s| :: s[i] <= hi
    ensures Sum(s) <= |s| * hi
  {
    if s != [] {
      var t := s[1..];
      forall i | 0 <= i < |t| ensures t[i] <= hi {
        assert t[i] == s[i + 1];
      }
      SumAtMost(t, hi);
      assert |s| * hi == |t| * hi + hi;
    }
  }

  lemma AppendAssoc<T>(a: seq<T>, b: seq<T>, c: seq<T>)
    ensures a + (b + c) == (a + b) + c
  {
  }

  /** `Array.prototype.slice(lo, hi)` with non-negative bounds: both are cut
      to the length, and a range that ends before it starts is empty. */
  function Slice<T>(s: seq<T>, lo: nat, hi: nat): (r: seq<T>)
    ensures lo <= hi <= |s| ==> r == s[lo..hi]
    ensures lo <= |s| <= hi ==> r == s[lo..]
    ensures |s| <= lo || hi <= lo ==> r == []
  {
    var a := if lo <= |s| then lo else |s|;
    var b := if hi <= |s| then hi else |s|;
    if a <= b then s[a..b] else []
  }

  /** Flattening, peeled from the end so that a left-to-right loop extends it. */
  function Concat<T>(xss: seq<seq<T>>): seq<T>
  {
    if xss == [] then [] else Concat(xss[..|xss| - 1]) + xss[|xss| - 1]
  }

  lemma ConcatPrefix<T>(xss: seq<seq<T>>, i: nat)
    requires i < |xss|
    ensures Concat(xss[..i + 1]) == Concat(xss[..i]) + xss[i]
  {
    assert xss[..i + 1][..i] == xss[..i];
  }

  lemma {:induction false} ConcatAppend<T>(a: seq<seq<T>>, b: seq<seq<T>>)
    ensures Concat(a + b) == Concat(a) + Concat(b)
  {
    if b != [] {
      var init := b[..|b| - 1];
      assert (a + b)[..|a + b| - 1] == a + init;
      ConcatAppend(a, init);
    } else {
      assert a + b == a;
    }
  }

  /** `Array.prototype.filter` with a total predicate. */
  function Filter<T>(s: seq<T>, p: T -> bool): (r: seq<T>)
    ensures |r| <= |s|
    ensures forall x | x in r :: p(x) && x in s
  {
    if s == [] then [] else (if p(s[0]) then [s[0]] else []) + Filter(s[1..], p)
  }

  lemma {:induction false} FilterAppend<T>(a: seq<T>, b: seq<T>, p: T -> bool)
    ensures Filter(a + b, p) == Filter(a, p) + Filter(b, p)
  {
    if a == [] {
      assert a + b == b;
    } else {
      assert (a + b)[1..] == a[1..] + b;
      FilterAppend(a[1..], b, p);
    }
  }

  lemma {:induction false} FilterMember<T>(s: seq<T>, p: T -> bool, j: nat)
    requires j < |s| && p(s[j])
    ensures s[j] in Filter(s, p)
  {
    if j > 0 {
      FilterMember(s[1..], p, j - 1);
    }
  }

  /** `x` occurs in `s` at an earlier position than `y`. */
  ghost predicate Precedes<T>(s: seq<T>, x: T, y: T)
  {
    exists a, b | 0 <= a < b < |s| :: s[a] == x && s[b] == y
  }

  /** Filtering keeps the relative order of the elements it keeps. */
  lemma {:induction false} FilterKeepsOrder<T>(s: seq<T>, p: T -> bool, i: nat, j: nat)
    requires i < j < |s| && p(s[i]) && p(s[j])
    ensures exists a, b | 0 <= a < b < |Filter(s, p)| :: Filter(s, p)[a] == s[i] && Filter(s, p)[b] == s[j]
  {
    var f := Filter(s, p);
    var rest := Filter(s[1..], p);
    var head := if p(s[0]) then [s[0]] else [];
    assert f == head + rest;
    if i == 0 {
      FilterMember(s[1..], p, j - 1);
      var b :| 0 <= b < |rest| && rest[b] == s[j];
      assert f[0] == s[0] && f[b + 1] == s[j];
    } else {
      FilterKeepsOrder(s[1..], p, i - 1, j - 1);
      var a, b :| 0 <= a < b < |rest| && rest[a] == s[i] && rest[b] == s[j];
      assert f[a + |head|] == s[i] && f[b + |head|] == s[j];
    }
  }

  /** Two elements of a filtered sequence come from `s` in the same order. */
  lemma {:induction false} FilterOrigins<T>(s: seq<T>, p: T -> bool, a: nat, b: nat)
    requires a < b < |Filter(s, p)|
    ensures exists i, j | 0 <= i < j < |s| :: s[i] == Filter(s, p)[a] && s[j] == Filter(s, p)[b]
  {
    var f := Filter(s, p);
    var rest := Filter(s[1..], p);
    var head := if p(s[0]) then [s[0]] else [];
    assert f == head + rest;
    if p(s[0]) && a == 0 {
      assert f[b] == rest[b - 1] && rest[b - 1] in rest;
      var j :| 0 <= j < |s[1..]| && s[1..][j] == rest[b - 1];
      assert s[0] == f[0] && s[j + 1] == f[b];
    } else {
      FilterOrigins(s[1..], p, a - |head|, b - |head|);
      var i, j :| 0 <= i < j < |s[1..]| && s[1..][i] == rest[a - |head|] && s[1..][j] == rest[b - |head|];
      assert s[i + 1] == f[a] && s[j + 1] == f[b];
    }
  }

  /** The number of elements of `s` that satisfy `p`. */
  function CountWhere<T>(s: seq<T>, p: T -> bool): (n: nat)
    ensures n <= |s|
  {
    |Filter(s, p)|
  }

  /** Counting one more element. */
  lemma CountWhereSnoc<T>(s: seq<T>, x: T, p: T -> bool)
    ensures CountWhere(s + [x], p) == CountWhere(s, p) + (if p(x) then 1 else 0)
  {
    FilterAppend(s, [x], p);
    assert [x][1..] == [];
  }

  predicate NoDups<T(==)>(s: seq<T>)
  {
    forall i, j | 0 <= i < j < |s| :: s[i] != s[j]
  }

  /** The number of elements of `xs` equal to one of `keys`, key by key. */
  function CountSum<T(==)>(keys: seq<T>, xs: seq<T>): nat
  {
    if keys == [] then 0 else multiset(xs)[keys[0]] + CountSum(keys[1..], xs)
  }

  lemma {:induction false} CountSumCons<T>(keys: seq<T>, x: T, xs: seq<T>)
    requires NoDups(keys)
    ensures CountSum(keys, [x] + xs) == (if x in keys then 1 else 0) + CountSum(keys, xs)
  {
    if keys != [] {
      assert NoDups(keys[1..]) by {
        forall i, j | 0 <= i < j < |keys[1..]| ensures keys[1..][i] != keys[1..][j] {
          assert keys[1..][i] == keys[i + 1] && keys[1..][j] == keys[j + 1];
        }
      }
      CountSumCons(keys[1..], x, xs);
      assert multiset([x] + xs)[keys[0]] == (if x == keys[0] then 1 else 0) + multiset(xs)[keys[0]];
      if x == keys[0] {
        assert x !in keys[1..] by {
          forall j | 0 <= j < |keys[1..]| ensures keys[1..][j] != x {
            assert keys[1..][j] == keys[j + 1];
          }
        }
      } else {
        assert (x in keys) == (x in keys[1..]) by {
          assert keys == [keys[0]] + keys[1..];
        }
      }
    }
  }

  /** When every element of `xs` is one of the distinct `keys`, the per-key
      counts add up to the length of `xs`: each element is counted exactly once. */
  lemma {:induction false} CountSumCovers<T>(keys: seq<T>, xs: seq<T>)
    requires NoDups(keys)
    requires forall x | x in xs :: x in keys
    ensures CountSum(keys, xs) == |xs|
  {
    if xs == [] {
      CountSumEmpty(keys, xs);
    } else {
      assert xs == [xs[0]] + xs[1..];
      CountSumCons(keys, xs[0], xs[1..]);
      CountSumCovers(keys, xs[1..]);
    }
  }

  lemma {:induction false} CountSumEmpty<T>(keys: seq<T>, xs: seq<T>)
    requires xs == []
    ensures CountSum(keys, xs) == 0
  {
    if keys != [] {
      CountSumEmpty(keys[1..], xs);
    }
  }

  /** The first index holding the maximum of `value` over `xs`. */
  function FirstMax<T>(xs: seq<T>, value: T -> int): (k: nat)
    requires |xs| > 0
    ensures k < |xs|
    ensures forall j | 0 <= j < |xs| :: value(xs[j]) <= value(xs[k])
    ensures forall j | 0 <= j < k :: value(xs[j]) < value(xs[k])
  {
    FirstMaxFrom(xs, value, 0, 1)
  }

  /** The left fold `reduce((a, b) => value(b) > value(a) ? b : a)`, on indices:
      `best` is the accumulator, `i` the next element. */
  function FirstMaxFrom<T>(xs: seq<T>, value: T -> int, best: nat, i: nat): (k: nat)
    requires best < i <= |xs|
    requires forall j | 0 <= j < i :: value(xs[j]) <= value(xs[best])
    requires forall j | 0 <= j < best :: value(xs[j]) < value(xs[best])
    ensures best <= k < |xs|
    ensures forall j | 0 <= j < |xs| :: value(xs[j]) <= value(xs[k])
    ensures forall j | 0 <= j < k :: value(xs[j]) < value(xs[k])
    decreases |xs| - i
  {
    if i == |xs| then best
    else FirstMaxFrom(xs, value, if value(xs[i]) > value(xs[best]) then i else best, i + 1)
  }

  /** The first maximum is the only index with both of its properties. */
  lemma FirstMaxUnique<T>(xs: seq<T>, value: T -> int, k: nat)
    requires k < |xs|
    requires forall j | 0 <= j < |xs| :: value(xs[j]) <= value(xs[k])
    requires forall j | 0 <= j < k :: value(xs[j]) < value(xs[k])
    ensures FirstMax(xs, value) == k
  {
    var m := FirstMax(xs, value);
    assert value(xs[m]) == value(xs[k]);
  }

  lemma {:induction false} NoDupsAtMostOnce<T>(s: seq<T>, x: T)
    requires NoDups(s)
    ensures multiset(s)[x] <= 1
  {
    if s != [] {
      assert s == [s[0]] + s[1..];
      assert NoDups(s[1..]) by {
        forall i, j | 0 <= i < j < |s[1..]| ensures s[1..][i] != s[1..][j] {
          assert s[1..][i] == s[i + 1] && s[1..][j] == s[j + 1];
        }
      }
      NoDupsAtMostOnce(s[1..], x);
      if s[0] == x {
        assert x !in s[1..] by {
          forall j | 0 <= j < |s[1..]| ensures s[1..][j] != x {
            assert s[1..][j] == s[j + 1];
          }
        }
      }
    }
  }

  /** A permutation of a sequence without duplicates has none either. */
  lemma NoDupsPermutation<T>(a: seq<T>, b: seq<T>)
    requires NoDups(a) && multiset(a) == multiset(b)
    ensures NoDups(b)
  {
    forall i, j | 0 <= i < j < |b| ensures b[i] != b[j] {
      if b[i] == b[j] {
        NoDupsAtMostOnce(a, b[i]);
        RepeatedTwice(b, i, j);
        assert false;
      }
    }
  }

  lemma RepeatedTwice<T>(s: seq<T>, i: nat, j: nat)
    requires i < j < |s| && s[i] == s[j]
    ensures multiset(s)[s[i]] >= 2
  {
    assert s == s[..i] + [s[i]] + s[i + 1..j] + [s[j]] + s[j + 1..];
  }
}
