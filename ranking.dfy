// Counting into a plain object (`m[k] = (m[k] || 0) + 1`), reading it back with
// `Object.entries`, and ordering with the stable `Array.prototype.sort`.
// The engine builds its subreddit table, word-frequency table and most-active
// day this way.

module Ranking {
  import opened Seqs

  /** One `[key, count]` pair of `Object.entries`. */
  datatype Entry<K> = Entry(key: K, count: nat)

  // ---------------------------------------------------------------- stable sort

  predicate SortedBy<T>(s: seq<T>, key: T -> int)
  {
    forall i, j | 0 <= i < j < |s| :: key(s[i]) <= key(s[j])
  }

  /** The elements of `s` whose key is `v`, in their order in `s`. */
  function Tie<T>(s: seq<T>, key: T -> int, v: int): seq<T>
  {
    Filter(s, HasKey(key, v))
  }

  function HasKey<T>(key: T -> int, v: int): T -> bool
  {
    x => key(x) == v
  }

  /** The first element with key `v` heads the elements with that key. */
  lemma {:induction false} TieFirst<T>(s: seq<T>, key: T -> int, v: int, k: nat)
    requires k < |s| && key(s[k]) == v
    requires forall j | 0 <= j < k :: key(s[j]) != v
    ensures Tie(s, key, v) != [] && Tie(s, key, v)[0] == s[k]
  {
    if k > 0 {
      TieFirst(s[1..], key, v, k - 1);
      assert Tie(s, key, v) == [] + Tie(s[1..], key, v);
    }
  }

  /** Places `x` before the first element whose key is not smaller. */
  function Insert<T>(x: T, s: seq<T>, key: T -> int): (r: seq<T>)
    ensures |r| == |s| + 1
  {
    if s == [] || key(x) <= key(s[0]) then [x] + s else [s[0]] + Insert(x, s[1..], key)
  }

  lemma {:induction false} InsertMultiset<T>(x: T, s: seq<T>, key: T -> int)
    ensures multiset(Insert(x, s, key)) == multiset(s) + multiset{x}
  {
    if s != [] && key(x) > key(s[0]) {
      InsertMultiset(x, s[1..], key);
      assert s == [s[0]] + s[1..];
    }
  }

  lemma {:induction false} InsertSorted<T>(x: T, s: seq<T>, key: T -> int)
    requires SortedBy(s, key)
    ensures SortedBy(Insert(x, s, key), key)
  {
    if s != [] && key(x) > key(s[0]) {
      var r := Insert(x, s, key);
      var rest := Insert(x, s[1..], key);
      assert SortedBy(s[1..], key);
      InsertSorted(x, s[1..], key);
      InsertMultiset(x, s[1..], key);
      assert r == [s[0]] + rest;
      forall j | 0 <= j < |rest| ensures key(s[0]) <= key(rest[j]) {
        assert rest[j] in multiset(s[1..]) + multiset{x};
        if rest[j] != x {
          var k :| 0 <= k < |s[1..]| && s[1..][k] == rest[j];
          assert s[k + 1] == rest[j];
        }
      }
    }
  }

  lemma {:induction false} InsertTie<T>(x: T, s: seq<T>, key: T -> int, v: int)
    requires SortedBy(s, key)
    ensures Tie(Insert(x, s, key), key, v) == (if key(x) == v then [x] else []) + Tie(s, key, v)
  {
    var r := Insert(x, s, key);
    if s == [] || key(x) <= key(s[0]) {
      assert r[1..] == s;
    } else {
      var rest := Insert(x, s[1..], key);
      assert SortedBy(s[1..], key);
      InsertTie(x, s[1..], key, v);
      assert r == [s[0]] + rest;
      assert s == [s[0]] + s[1..];
      FilterAppend([s[0]], rest, HasKey(key, v));
      FilterAppend([s[0]], s[1..], HasKey(key, v));
      if key(s[0]) == v {
        assert key(x) != v;
      }
    }
  }

  /** `Array.prototype.sort` with a comparator `(a, b) => key(a) - key(b)`:
      stable insertion sort. The result is ordered by `key`, is a permutation
      of `s`, and elements with equal keys keep their relative order. */
  function SortBy<T>(s: seq<T>, key: T -> int): (r: seq<T>)
    ensures SortedBy(r, key)
    ensures multiset(r) == multiset(s)
    ensures |r| == |s|
    ensures forall v :: Tie(r, key, v) == Tie(s, key, v)
  {
    if s == [] then []
    else
      var rest := SortBy(s[1..], key);
      InsertSorted(s[0], rest, key);
      InsertMultiset(s[0], rest, key);
      assert forall v :: Tie(Insert(s[0], rest, key), key, v) == (if key(s[0]) == v then [s[0]] else []) + Tie(rest, key, v) by {
        forall v ensures Tie(Insert(s[0], rest, key), key, v) == (if key(s[0]) == v then [s[0]] else []) + Tie(rest, key, v) {
          InsertTie(s[0], rest, key, v);
        }
      }
      assert s == [s[0]] + s[1..];
      assert forall v :: Tie(s, key, v) == (if key(s[0]) == v then [s[0]] else []) + Tie(s[1..], key, v) by {
        forall v ensures Tie(s, key, v) == (if key(s[0]) == v then [s[0]] else []) + Tie(s[1..], key, v) {
          FilterAppend([s[0]], s[1..], HasKey(key, v));
        }
      }
      Insert(s[0], rest, key)
  }

  // ------------------------------------------------------------------- tallying

  /** The distinct elements of `xs` in first-seen order: the key order of a
      plain object filled left to right (for keys that are not array indices). */
  function Distinct<K(==)>(xs: seq<K>): (d: seq<K>)
    ensures NoDups(d)
    ensures forall k | k in d :: k in xs
    ensures forall k | k in xs :: k in d
  {
    if xs == [] then []
    else
      var d := Distinct(xs[..|xs| - 1]);
      var x := xs[|xs| - 1];
      assert xs == xs[..|xs| - 1] + [x];
      if x in d then d else d + [x]
  }

  /** `Object.entries` of the object counting `xs`: one entry per distinct key in
      first-seen order, carrying the number of occurrences. */
  function Tally<K(==)>(xs: seq<K>): seq<Entry<K>>
  {
    var d := Distinct(xs);
    seq(|d|, i requires 0 <= i < |d| => Entry(d[i], multiset(xs)[d[i]]))
  }

  function Keys<K>(es: seq<Entry<K>>): seq<K>
  {
    seq(|es|, i requires 0 <= i < |es| => es[i].key)
  }

  function SumCounts<K>(es: seq<Entry<K>>): nat
  {
    if es == [] then 0 else es[0].count + SumCounts(es[1..])
  }

  /** The tally lists every key once, with its number of occurrences, in
      first-seen order. */
  lemma TallyProperties<K>(xs: seq<K>)
    ensures Keys(Tally(xs)) == Distinct(xs)
    ensures forall e | e in Tally(xs) :: e.key in xs && e.count == multiset(xs)[e.key] && e.count > 0
    ensures forall k | k in xs :: exists e | e in Tally(xs) :: e.key == k
  {
    var d := Distinct(xs);
    var t := Tally(xs);
    assert Keys(t) == d;
    forall k | k in xs ensures exists e | e in t :: e.key == k {
      var i :| 0 <= i < |d| && d[i] == k;
      assert t[i] in t;
    }
  }

  /** The counts of a tally add up to the number of keys counted. */
  lemma TallyTotal<K>(xs: seq<K>)
    ensures SumCounts(Tally(xs)) == |xs|
  {
    var d := Distinct(xs);
    TallySum(d, xs);
    CountSumCovers(d, xs);
  }

  lemma {:induction false} TallySum<K>(d: seq<K>, xs: seq<K>)
    ensures SumCounts(seq(|d|, i requires 0 <= i < |d| => Entry(d[i], multiset(xs)[d[i]]))) == CountSum(d, xs)
  {
    var t := seq(|d|, i requires 0 <= i < |d| => Entry(d[i], multiset(xs)[d[i]]));
    if d != [] {
      var t' := seq(|d[1..]|, i requires 0 <= i < |d[1..]| => Entry(d[1..][i], multiset(xs)[d[1..][i]]));
      assert t[1..] == t';
      TallySum(d[1..], xs);
    }
  }

  /** `counts` and its key order `order` are the plain object after counting
      the keys `xs`. */
  predicate Counted<K(==)>(counts: map<K, nat>, order: seq<K>, xs: seq<K>)
  {
    && order == Distinct(xs)
    && (forall k | k in counts :: k in order)
    && (forall k | k in order :: k in counts)
    && (forall k | k in counts :: counts[k] == multiset(xs)[k])
  }

  /** One `m[k] = (m[k] || 0) + 1` on an object whose keys are never inherited
      properties. */
  method Bump<K(==)>(counts: map<K, nat>, order: seq<K>, ghost xs: seq<K>, k: K)
    returns (counts': map<K, nat>, order': seq<K>)
    requires Counted(counts, order, xs)
    ensures Counted(counts', order', xs + [k])
  {
    assert (xs + [k])[..|xs|] == xs;
    if k in counts {
      counts', order' := counts[k := counts[k] + 1], order;
    } else {
      counts', order' := counts[k := 1], order + [k];
    }
  }

  /** `Object.entries` of a counting object is the tally of what it counted. */
  lemma CountedEntries<K>(counts: map<K, nat>, order: seq<K>, xs: seq<K>)
    requires Counted(counts, order, xs)
    ensures seq(|order|, j requires 0 <= j < |order| => Entry(order[j], counts[order[j]])) == Tally(xs)
  {
  }

  /** The counting loop `xs.forEach(k => { m[k] = (m[k] || 0) + 1; })` followed
      by `Object.entries(m)`, with the object as a map and its key order as a
      sequence. */
  method CountKeys<K(==)>(xs: seq<K>) returns (entries: seq<Entry<K>>)
    ensures entries == Tally(xs)
  {
    var counts: map<K, nat> := map[];
    var order: seq<K> := [];
    for i := 0 to |xs|
      invariant Counted(counts, order, xs[..i])
    {
      assert xs[..i + 1] == xs[..i] + [xs[i]];
      counts, order := Bump(counts, order, xs[..i], xs[i]);
    }
    assert xs[..|xs|] == xs;
    CountedEntries(counts, order, xs);
    entries := seq(|order|, j requires 0 <= j < |order| => Entry(order[j], counts[order[j]]));
  }

  /** `ws.forEach(w => { if (keep(w)) m[w] = (m[w] || 0) + 1; })` on an object
      that has already counted `before`. */
  method CountKept<K(==)>(counts: map<K, nat>, order: seq<K>, ghost before: seq<K>, ws: seq<K>, keep: K -> bool)
    returns (counts': map<K, nat>, order': seq<K>)
    requires Counted(counts, order, before)
    ensures Counted(counts', order', before + Filter(ws, keep))
  {
    counts', order' := counts, order;
    ghost var seen := before;
    assert before + Filter(ws[..0], keep) == before;
    for j := 0 to |ws|
      invariant seen == before + Filter(ws[..j], keep)
      invariant Counted(counts', order', seen)
    {
      assert ws[..j + 1] == ws[..j] + [ws[j]];
      FilterAppend(ws[..j], [ws[j]], keep);
      assert Filter([ws[j]], keep) == if keep(ws[j]) then [ws[j]] else [] by {
        assert [ws[j]][1..] == [];
      }
      AppendAssoc(before, Filter(ws[..j], keep), Filter([ws[j]], keep));
      if keep(ws[j]) {
        counts', order' := Bump(counts', order', seen, ws[j]);
        seen := seen + [ws[j]];
      } else {
        assert seen + [] == seen;
      }
    }
    assert ws[..|ws|] == ws;
  }

  // ------------------------------------------------------------------- ranking

  /** Sort key for "count descending": `(a, b) => b[1] - a[1]`. */
  function ByCountDesc<K>(e: Entry<K>): int { -(e.count as int) }

  /** `Object.entries(m).sort((a, b) => b[1] - a[1])` */
  function Rank<K>(es: seq<Entry<K>>): seq<Entry<K>>
  {
    SortBy(es, ByCountDesc)
  }

  /** `.slice(0, n)` */
  function Take<T>(s: seq<T>, n: nat): (r: seq<T>)
    ensures |r| <= n && |r| <= |s|
    ensures n <= |s| ==> |r| == n
    ensures n > |s| ==> r == s
    ensures forall i | 0 <= i < |r| :: r[i] == s[i]
  {
    if n <= |s| then s[..n] else s
  }

  predicate NonIncreasing<K>(es: seq<Entry<K>>)
  {
    forall i, j | 0 <= i < j < |es| :: es[i].count >= es[j].count
  }

  /** The entries of `es` whose count is `c`, in their order in `es`. */
  function WithCount<K>(es: seq<Entry<K>>, c: nat): seq<Entry<K>>
  {
    Tie(es, ByCountDesc, -(c as int))
  }

  /** A ranking lists the same entries ordered by count, highest first; entries
      with the same count keep the order they had before ranking. */
  lemma RankProperties<K>(es: seq<Entry<K>>)
    ensures NonIncreasing(Rank(es))
    ensures multiset(Rank(es)) == multiset(es)
    ensures forall c: nat :: WithCount(Rank(es), c) == WithCount(es, c)
  {
    var r := Rank(es);
    assert SortedBy(r, ByCountDesc);
  }

  /** Entries with equal counts keep their relative order in a ranking. */
  lemma RankKeepsTieOrder<K>(es: seq<Entry<K>>, i: nat, j: nat)
    requires i < j < |Rank(es)| && Rank(es)[i].count == Rank(es)[j].count
    ensures exists a, b | 0 <= a < b < |es| :: es[a] == Rank(es)[i] && es[b] == Rank(es)[j]
  {
    var r := Rank(es);
    var c := r[i].count;
    var p := HasKey(ByCountDesc, -(c as int));
    assert p(r[i]) && p(r[j]);
    FilterKeepsOrder(r, p, i, j);
    var tr := Filter(r, p);
    var a, b :| 0 <= a < b < |tr| && tr[a] == r[i] && tr[b] == r[j];
    var te := Filter(es, p);
    assert tr == te by {
      RankProperties(es);
      assert WithCount(r, c) == WithCount(es, c);
    }
    FilterOrigins(es, p, a, b);
    var x, y :| 0 <= x < y < |es| && es[x] == te[a] && es[y] == te[b];
    assert es[x] == r[i] && es[y] == r[j];
  }

  function EntryCount<K>(e: Entry<K>): int { e.count }

  /** The head of a ranking is the first entry with the highest count: what
      `reduce((a, b) => b.count > a.count ? b : a)` would pick. */
  lemma RankHeadIsFirstMax<K>(es: seq<Entry<K>>)
    requires es != []
    ensures Rank(es) != [] && Rank(es)[0] == es[FirstMax(es, EntryCount)]
  {
    var r := Rank(es);
    var k := FirstMax(es, EntryCount);
    var c := es[k].count;
    RankProperties(es);
    assert r[0] in multiset(es);
    assert r[0].count <= c;
    assert es[k] in multiset(r);
    assert r[0].count >= c by {
      var i :| 0 <= i < |r| && r[i] == es[k];
    }
    TieFirst(r, ByCountDesc, -(c as int), 0);
    TieFirst(es, ByCountDesc, -(c as int), k);
    assert WithCount(r, c) == WithCount(es, c);
  }

  /** Keys of a tally are distinct, so a ranking of it has distinct keys too. */
  lemma RankedTallyDistinctKeys<K>(xs: seq<K>)
    ensures NoDups(Keys(Rank(Tally(xs))))
  {
    var t := Tally(xs);
    var r := Rank(t);
    var d := Distinct(xs);
    assert NoDups(t) by {
      forall i, j | 0 <= i < j < |t| ensures t[i] != t[j] {
        assert t[i].key == d[i] && t[j].key == d[j];
      }
    }
    RankProperties(t);
    NoDupsPermutation(t, r);
    forall i, j | 0 <= i < j < |r| ensures r[i].key != r[j].key {
      assert r[i] in multiset(t) && r[j] in multiset(t);
      assert r[i] in t && r[j] in t;
      assert r[i] != r[j];
    }
  }

  /** The first `n` entries of the ranked tally of `xs`: at most `n` of them,
      highest count first, each a key of `xs` with its number of occurrences. */
  lemma TopTallyProperties<K>(xs: seq<K>, n: nat)
    ensures var top := Take(Rank(Tally(xs)), n);
      && |top| <= n
      && NonIncreasing(top)
      && (forall i | 0 <= i < |top| :: top[i].key in xs && top[i].count == multiset(xs)[top[i].key] > 0)
  {
    var t := Tally(xs);
    var r := Rank(t);
    var top := Take(r, n);
    TallyProperties(xs);
    RankProperties(t);
    forall i | 0 <= i < |top| ensures top[i].key in xs && top[i].count == multiset(xs)[top[i].key] > 0 {
      assert top[i] == r[i];
      assert r[i] in multiset(t);
    }
  }

  /** The first `n` entries of the ranked tally of `xs` list no key twice. */
  lemma TopTallyDistinct<K>(xs: seq<K>, n: nat)
    ensures NoDups(Keys(Take(Rank(Tally(xs)), n)))
  {
    var r := Rank(Tally(xs));
    var top := Take(r, n);
    RankedTallyDistinctKeys(xs);
    assert Keys(top) == Keys(r)[..|top|];
  }

  /** Keys with equal counts appear in the order they were first seen. */
  lemma TopTallyTieOrder<K>(xs: seq<K>, n: nat, i: nat, j: nat)
    requires var top := Take(Rank(Tally(xs)), n); i < j < |top| && top[i].count == top[j].count
    ensures var top := Take(Rank(Tally(xs)), n); Precedes(Distinct(xs), top[i].key, top[j].key)
  {
    var t := Tally(xs);
    var r := Rank(t);
    TallyProperties(xs);
    RankKeepsTieOrder(t, i, j);
    var a, b :| 0 <= a < b < |t| && t[a] == r[i] && t[b] == r[j];
    assert Keys(t)[a] == r[i].key && Keys(t)[b] == r[j].key;
    assert Distinct(xs)[a] == r[i].key && Distinct(xs)[b] == r[j].key;
  }
}
