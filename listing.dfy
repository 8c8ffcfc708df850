// Cursor-paginated fetching of a user's listing (`fetchListing`) and of the
// search index (`fetchListingBySearch`). The network is a page source: a
// function from the `after` cursor to the response for that page, with the
// empty cursor standing for the first page and for a missing `after`.

module Listing {
  import opened Wrappers
  import opened Items
  import opened Seqs

  /** One element of `data.children`; `data` may be missing. */
  datatype Child = Child(data: Option<Item>)

  /** What one page request yields: the fetch threw (`Failed`), the body has
      no `data.children` (`Unreadable`), or a page of children with the
      cursor of the next page (`""` when `after` is null). */
  datatype Response = Failed | Unreadable | Page(children: seq<Child>, after: string)

  type Source = string -> Response

  const MaxPages: nat := 10

  /** `children.map(c => c.data).filter(Boolean)` */
  function Batch(cs: seq<Child>): (r: seq<Item>)
    ensures |r| <= |cs|
  {
    if cs == [] then []
    else (if cs[0].data.Some? then [cs[0].data.value] else []) + Batch(cs[1..])
  }

  /** A page that the loop keeps: it was read and has at least one child. */
  predicate Received(r: Response)
  {
    r.Page? && r.children != []
  }

  /** The items `fetchListing` gathers starting at `cursor` with `left` page
      requests still allowed: it stops at a failed or unreadable fetch, at an
      empty page and after a page without a next cursor. */
  function Collect(src: Source, cursor: string, left: nat): seq<Item>
    decreases left
  {
    if left == 0 then []
    else
      var r := src(cursor);
      if !Received(r) then []
      else Batch(r.children) + (if r.after == "" then [] else Collect(src, r.after, left - 1))
  }

  /** The number of page requests made on the same path. */
  function Requests(src: Source, cursor: string, left: nat): nat
    decreases left
  {
    if left == 0 then 0
    else
      var r := src(cursor);
      if Received(r) && r.after != "" then 1 + Requests(src, r.after, left - 1) else 1
  }

  /** One step of `Collect` and `Requests`, for the loops below. */
  lemma CollectStep(src: Source, cursor: string, left: nat)
    requires left > 0
    ensures !Received(src(cursor)) ==> Collect(src, cursor, left) == [] && Requests(src, cursor, left) == 1
    ensures Received(src(cursor)) && src(cursor).after == "" ==>
      Collect(src, cursor, left) == Batch(src(cursor).children) && Requests(src, cursor, left) == 1
    ensures Received(src(cursor)) && src(cursor).after != "" ==>
      Collect(src, cursor, left) == Batch(src(cursor).children) + Collect(src, src(cursor).after, left - 1)
      && Requests(src, cursor, left) == 1 + Requests(src, src(cursor).after, left - 1)
  {
  }

  /** `fetchListing(username, type)` over the page source of that endpoint.
      The ghost `calls` counts the page requests. */
  method FetchListing(src: Source) returns (items: seq<Item>, ghost calls: nat)
    ensures items == Collect(src, "", MaxPages)
    ensures calls == Requests(src, "", MaxPages)
  {
    items := [];
    calls := 0;
    var after := "";
    var page: nat := 0;
    while page < MaxPages
      invariant page <= MaxPages
      invariant items + Collect(src, after, MaxPages - page) == Collect(src, "", MaxPages)
      invariant calls + Requests(src, after, MaxPages - page) == Requests(src, "", MaxPages)
    {
      var res := src(after);
      CollectStep(src, after, MaxPages - page);
      calls := calls + 1;
      if !Received(res) {
        break;
      }
      items := items + Batch(res.children);
      page := page + 1;
      after := res.after;
      if after == "" {
        break;
      }
    }
  }

  // ------------------------------------------------------- the page chain

  function NextCursor(r: Response): string
  {
    if r.Page? then r.after else ""
  }

  /** The cursor of the `k`-th request when every earlier page continued. */
  function CursorAt(src: Source, c: string, k: nat): string
  {
    if k == 0 then c else NextCursor(src(CursorAt(src, c, k - 1)))
  }

  function PageAt(src: Source, c: string, k: nat): Response
  {
    src(CursorAt(src, c, k))
  }

  /** The `k`-th page was kept and names a next page. */
  predicate Continues(src: Source, c: string, k: nat)
  {
    Received(PageAt(src, c, k)) && PageAt(src, c, k).after != ""
  }

  /** Each of the first `k` pages continues; stated by recursion on `k` for
      the unfolding lemmas. */
  predicate ContinuesFor(src: Source, c: string, k: nat)
  {
    k == 0 || (ContinuesFor(src, c, k - 1) && Continues(src, c, k - 1))
  }

  lemma {:induction false} ContinuesForAll(src: Source, c: string, k: nat)
    requires forall i | 0 <= i < k :: Continues(src, c, i)
    ensures ContinuesFor(src, c, k)
  {
    if k > 0 {
      ContinuesForAll(src, c, k - 1);
    }
  }

  /** The batches of the first `k` pages of the chain. */
  function Batches(src: Source, c: string, k: nat): (r: seq<seq<Item>>)
    ensures |r| == k
  {
    if k == 0 then []
    else
      var p := PageAt(src, c, k - 1);
      Batches(src, c, k - 1) + [if p.Page? then Batch(p.children) else []]
  }

  /** While pages continue, the result is their batches followed by what the
      rest of the chain yields. */
  lemma {:induction false} CollectUnfold(src: Source, c: string, left: nat, k: nat)
    requires k <= left && ContinuesFor(src, c, k)
    ensures Collect(src, c, left) == Concat(Batches(src, c, k)) + Collect(src, CursorAt(src, c, k), left - k)
  {
    if k > 0 {
      CollectUnfold(src, c, left, k - 1);
      CollectUnfoldStep(src, c, left, k);
    } else {
      CollectUnfoldBase(src, c, left);
    }
  }

  lemma CollectUnfoldBase(src: Source, c: string, left: nat)
    ensures Collect(src, c, left) == Concat(Batches(src, c, 0)) + Collect(src, CursorAt(src, c, 0), left)
  {
    assert Concat(Batches(src, c, 0)) == [];
  }

  /** One more continuing page moves its batch from the rest of the chain
      to the batches before it. */
  lemma CollectUnfoldStep(src: Source, c: string, left: nat, k: nat)
    requires 0 < k <= left && Continues(src, c, k - 1)
    requires Collect(src, c, left) == Concat(Batches(src, c, k - 1)) + Collect(src, CursorAt(src, c, k - 1), left - (k - 1))
    ensures Collect(src, c, left) == Concat(Batches(src, c, k)) + Collect(src, CursorAt(src, c, k), left - k)
  {
    var prev := CursorAt(src, c, k - 1);
    var p := src(prev);
    assert Received(p) && p.after != "";
    var before, rest := Concat(Batches(src, c, k - 1)), Collect(src, p.after, left - k);
    assert CursorAt(src, c, k) == p.after;
    CollectStep(src, prev, left - (k - 1));
    assert Collect(src, prev, left - (k - 1)) == Batch(p.children) + rest;
    ConcatBatchesStep(src, c, k);
    AppendAssoc(before, Batch(p.children), rest);
  }

  lemma ConcatBatchesStep(src: Source, c: string, k: nat)
    requires k > 0 && PageAt(src, c, k - 1).Page?
    ensures Concat(Batches(src, c, k)) == Concat(Batches(src, c, k - 1)) + Batch(PageAt(src, c, k - 1).children)
  {
    var bs := Batches(src, c, k);
    assert bs[..k - 1] == Batches(src, c, k - 1);
  }

  /** While pages continue, each of them costs one request. */
  lemma {:induction false} RequestsUnfold(src: Source, c: string, left: nat, k: nat)
    requires k <= left && ContinuesFor(src, c, k)
    ensures Requests(src, c, left) == k + Requests(src, CursorAt(src, c, k), left - k)
  {
    if k > 0 {
      RequestsUnfold(src, c, left, k - 1);
      CollectStep(src, CursorAt(src, c, k - 1), left - (k - 1));
    }
  }

  /** A failed, unreadable or empty page `k` ends the listing with the items of
      the pages before it: the partial result is returned, not an error. */
  lemma StopsAtFailure(src: Source, k: nat)
    requires k < MaxPages
    requires forall i | 0 <= i < k :: Continues(src, "", i)
    requires !Received(PageAt(src, "", k))
    ensures Collect(src, "", MaxPages) == Concat(Batches(src, "", k))
    ensures Requests(src, "", MaxPages) == k + 1
  {
    ContinuesForAll(src, "", k);
    CollectUnfold(src, "", MaxPages, k);
    RequestsUnfold(src, "", MaxPages, k);
    CollectStep(src, CursorAt(src, "", k), MaxPages - k);
  }

  /** A page `k` without a next cursor is the last page read. */
  lemma StopsAtLastPage(src: Source, k: nat)
    requires k < MaxPages
    requires forall i | 0 <= i < k :: Continues(src, "", i)
    requires Received(PageAt(src, "", k)) && PageAt(src, "", k).after == ""
    ensures Collect(src, "", MaxPages) == Concat(Batches(src, "", k + 1))
    ensures Requests(src, "", MaxPages) == k + 1
  {
    ContinuesForAll(src, "", k);
    CollectUnfold(src, "", MaxPages, k);
    RequestsUnfold(src, "", MaxPages, k);
    CollectStep(src, CursorAt(src, "", k), MaxPages - k);
  }

  /** A chain that always continues is cut after ten pages. */
  lemma StopsAtPageLimit(src: Source)
    requires forall i | 0 <= i < MaxPages :: Continues(src, "", i)
    ensures Collect(src, "", MaxPages) == Concat(Batches(src, "", MaxPages))
    ensures Requests(src, "", MaxPages) == MaxPages
  {
    ContinuesForAll(src, "", MaxPages);
    CollectUnfold(src, "", MaxPages, MaxPages);
    RequestsUnfold(src, "", MaxPages, MaxPages);
  }

  /** At most `left` requests are made, and at least one when any is allowed. */
  lemma {:induction false} RequestsBound(src: Source, c: string, left: nat)
    ensures Requests(src, c, left) <= left
    ensures left > 0 ==> Requests(src, c, left) >= 1
    decreases left
  {
    if left > 0 {
      var r := src(c);
      if Received(r) && r.after != "" {
        RequestsBound(src, r.after, left - 1);
      }
    }
  }

  // ------------------------------------------------------------ duplicates

  function Ids(xs: seq<Item>): set<string>
  {
    if xs == [] then {} else {xs[0].id} + Ids(xs[1..])
  }

  lemma {:induction false} IdsAppend(a: seq<Item>, b: seq<Item>)
    ensures Ids(a + b) == Ids(a) + Ids(b)
  {
    if a == [] {
      assert a + b == b;
    } else {
      assert (a + b)[0] == a[0];
      assert (a + b)[1..] == a[1..] + b;
      IdsAppend(a[1..], b);
    }
  }

  lemma {:induction false} IdsMember(xs: seq<Item>, x: Item)
    requires x in xs
    ensures x.id in Ids(xs)
  {
    if xs[0] != x {
      IdsMember(xs[1..], x);
    }
  }

  predicate DistinctIds(xs: seq<Item>)
  {
    forall i, j | 0 <= i < j < |xs| :: xs[i].id != xs[j].id
  }

  /** The items of `xs` whose id is neither in `seen` nor on an earlier item:
      the first occurrence of each new id, in order. */
  function DedupFrom(xs: seq<Item>, seen: set<string>): seq<Item>
  {
    if xs == [] then []
    else if xs[0].id in seen then DedupFrom(xs[1..], seen)
    else [xs[0]] + DedupFrom(xs[1..], seen + {xs[0].id})
  }

  /** Every kept item comes from `xs` and carries an id not seen before. */
  lemma {:induction false} DedupSubset(xs: seq<Item>, seen: set<string>)
    ensures forall y | y in DedupFrom(xs, seen) :: y in xs && y.id !in seen
  {
    if xs != [] {
      var s' := if xs[0].id in seen then seen else seen + {xs[0].id};
      DedupSubset(xs[1..], s');
      assert forall y | y in xs[1..] :: y in xs;
    }
  }

  /** The kept ids are exactly the new ids of `xs`. */
  lemma {:induction false} DedupIds(xs: seq<Item>, seen: set<string>)
    ensures Ids(DedupFrom(xs, seen)) == Ids(xs) - seen
  {
    if xs != [] {
      var x := xs[0];
      if x.id in seen {
        DedupIds(xs[1..], seen);
      } else {
        var rest := DedupFrom(xs[1..], seen + {x.id});
        DedupIds(xs[1..], seen + {x.id});
        assert ([x] + rest)[0] == x;
        assert ([x] + rest)[1..] == rest;
        assert Ids([x] + rest) == {x.id} + Ids(rest);
      }
    }
  }

  /** No id is kept twice. */
  lemma {:induction false} DedupDistinct(xs: seq<Item>, seen: set<string>)
    ensures DistinctIds(DedupFrom(xs, seen))
  {
    if xs != [] {
      var x := xs[0];
      if x.id in seen {
        DedupDistinct(xs[1..], seen);
      } else {
        var rest := DedupFrom(xs[1..], seen + {x.id});
        DedupDistinct(xs[1..], seen + {x.id});
        DedupSubset(xs[1..], seen + {x.id});
        var r := [x] + rest;
        forall i, j | 0 <= i < j < |r| ensures r[i].id != r[j].id {
          assert r[j] == rest[j - 1];
          if i > 0 {
            assert r[i] == rest[i - 1];
          } else {
            assert rest[j - 1] in rest;
          }
        }
      }
    }
  }

  lemma {:induction false} DedupAppend(a: seq<Item>, b: seq<Item>, seen: set<string>)
    ensures DedupFrom(a + b, seen) == DedupFrom(a, seen) + DedupFrom(b, seen + Ids(a))
  {
    if a == [] {
      assert a + b == b;
      assert seen + Ids(a) == seen;
    } else {
      assert (a + b)[1..] == a[1..] + b;
      assert (a + b)[0] == a[0];
      if a[0].id in seen {
        DedupAppend(a[1..], b, seen);
        assert seen + Ids(a) == seen + Ids(a[1..]);
      } else {
        DedupAppend(a[1..], b, seen + {a[0].id});
        assert seen + {a[0].id} + Ids(a[1..]) == seen + Ids(a);
        assert DedupFrom(a, seen) == [a[0]] + DedupFrom(a[1..], seen + {a[0].id});
      }
    }
  }

  /** An item whose id is new and appears on no earlier item is kept, so the
      item kept for each id is its first occurrence. */
  lemma {:induction false} DedupKeepsFirst(xs: seq<Item>, seen: set<string>, i: nat)
    requires i < |xs| && xs[i].id !in seen
    requires forall j | 0 <= j < i :: xs[j].id != xs[i].id
    ensures xs[i] in DedupFrom(xs, seen)
  {
    if i > 0 {
      var s' := if xs[0].id in seen then seen else seen + {xs[0].id};
      assert xs[1..][i - 1] == xs[i];
      DedupKeepsFirst(xs[1..], s', i - 1);
    }
  }

  lemma BatchCons(cs: seq<Child>, i: nat)
    requires i < |cs|
    ensures Batch(cs[i..]) == (if cs[i].data.Some? then [cs[i].data.value] else []) + Batch(cs[i + 1..])
  {
    assert cs[i..][1..] == cs[i + 1..];
  }

  /** The per-child check-and-add of the search loop over one page:
      each child's id is tested against every id seen so far, including the
      ids of earlier children of the same page. */
  method DedupPage(cs: seq<Child>, seen0: set<string>) returns (batch: seq<Item>, seen: set<string>)
    ensures batch == DedupFrom(Batch(cs), seen0)
    ensures seen == seen0 + Ids(Batch(cs))
  {
    batch := [];
    seen := seen0;
    for i := 0 to |cs|
      invariant batch + DedupFrom(Batch(cs[i..]), seen) == DedupFrom(Batch(cs), seen0)
      invariant seen + Ids(Batch(cs[i..])) == seen0 + Ids(Batch(cs))
    {
      BatchCons(cs, i);
      var c := cs[i];
      if c.data.Some? {
        var x := c.data.value;
        ghost var rest := Batch(cs[i + 1..]);
        assert ([x] + rest)[1..] == rest;
        assert ([x] + rest)[0] == x;
        assert Ids([x] + rest) == {x.id} + Ids(rest);
        if x.id !in seen {
          assert DedupFrom([x] + rest, seen) == [x] + DedupFrom(rest, seen + {x.id});
          AppendAssoc(batch, [x], DedupFrom(rest, seen + {x.id}));
          assert seen + Ids([x] + rest) == (seen + {x.id}) + Ids(rest);
          batch := batch + [x];
          seen := seen + {x.id};
        } else {
          assert DedupFrom([x] + rest, seen) == DedupFrom(rest, seen);
          assert seen + Ids([x] + rest) == seen + Ids(rest);
        }
      } else {
        assert Batch(cs[i..]) == Batch(cs[i + 1..]);
      }
    }
  }

  /** A kept page moves its deduplicated batch from the rest of the chain to
      the items gathered before it. */
  lemma SearchStep(src: Source, cursor: string, left: nat, items: seq<Item>, seen: set<string>,
                   batch: seq<Item>, seen': set<string>)
    requires left > 0 && Received(src(cursor))
    requires batch == DedupFrom(Batch(src(cursor).children), seen)
    requires seen' == seen + Ids(Batch(src(cursor).children))
    ensures var r := src(cursor);
      items + DedupFrom(Collect(src, cursor, left), seen)
      == (items + batch) + DedupFrom(if r.after == "" then [] else Collect(src, r.after, left - 1), seen')
  {
    var r := src(cursor);
    var rest := if r.after == "" then [] else Collect(src, r.after, left - 1);
    CollectStep(src, cursor, left);
    assert Collect(src, cursor, left) == Batch(r.children) + rest;
    DedupAppend(Batch(r.children), rest, seen);
    AppendAssoc(items, batch, DedupFrom(rest, seen'));
  }

  /** `fetchListingBySearch` with the duplicate check applied child by child:
      the listing with every repeated id dropped. */
  method FetchListingBySearch(src: Source) returns (items: seq<Item>)
    ensures items == DedupFrom(Collect(src, "", MaxPages), {})
  {
    items := [];
    var seen: set<string> := {};
    var after := "";
    var page: nat := 0;
    while page < MaxPages
      invariant page <= MaxPages
      invariant items + DedupFrom(Collect(src, after, MaxPages - page), seen) == DedupFrom(Collect(src, "", MaxPages), {})
    {
      var res := src(after);
      CollectStep(src, after, MaxPages - page);
      if !Received(res) {
        break;
      }
      var batch, seen' := DedupPage(res.children, seen);
      SearchStep(src, after, MaxPages - page, items, seen, batch, seen');
      seen := seen';
      items := items + batch;
      page := page + 1;
      after := res.after;
      if after == "" {
        break;
      }
    }
  }

  /** The search result has no repeated id and keeps every id of the listing. */
  lemma SearchResultDistinct(src: Source)
    ensures DistinctIds(DedupFrom(Collect(src, "", MaxPages), {}))
    ensures Ids(DedupFrom(Collect(src, "", MaxPages), {})) == Ids(Collect(src, "", MaxPages))
  {
    DedupDistinct(Collect(src, "", MaxPages), {});
    DedupIds(Collect(src, "", MaxPages), {});
  }

  // ------------------------------------------------- the loop as written

  /** `.filter(c => c.data && !seenIds.has(c.data.id))` on one page, with
      `seenIds` as it was before the page. */
  function Unseen(xs: seq<Item>, seen: set<string>): (r: seq<Item>)
    ensures forall y | y in r :: y in xs && y.id !in seen
  {
    if xs == [] then [] else (if xs[0].id in seen then [] else [xs[0]]) + Unseen(xs[1..], seen)
  }

  /** What `fetchListingBySearch` computes as written: each page is filtered
      against the ids seen before that page, and only then are the page's ids
      added, so repeated ids inside one page survive. */
  function SearchAsWritten(src: Source, cursor: string, left: nat, seen: set<string>): seq<Item>
    decreases left
  {
    if left == 0 then []
    else
      var r := src(cursor);
      if !Received(r) then []
      else
        var b := Unseen(Batch(r.children), seen);
        b + (if r.after == "" then [] else SearchAsWritten(src, r.after, left - 1, seen + Ids(b)))
  }

  lemma SearchAsWrittenStep(src: Source, cursor: string, left: nat, seen: set<string>)
    requires left > 0
    ensures !Received(src(cursor)) ==> SearchAsWritten(src, cursor, left, seen) == []
    ensures Received(src(cursor)) ==>
      var b := Unseen(Batch(src(cursor).children), seen);
      SearchAsWritten(src, cursor, left, seen)
        == b + (if src(cursor).after == "" then [] else SearchAsWritten(src, src(cursor).after, left - 1, seen + Ids(b)))
  {
  }

  /** `.map(c => { seenIds.add(c.data.id); return c.data; })` */
  method AddIds(batch: seq<Item>, seen0: set<string>) returns (seen: set<string>)
    ensures seen == seen0 + Ids(batch)
  {
    seen := seen0;
    for i := 0 to |batch|
      invariant seen == seen0 + Ids(batch[..i])
    {
      IdsAppend(batch[..i], [batch[i]]);
      assert batch[..i + 1] == batch[..i] + [batch[i]];
      assert Ids([batch[i]]) == {batch[i].id} by {
        assert [batch[i]][1..] == [];
      }
      seen := seen + {batch[i].id};
    }
    assert batch[..|batch|] == batch;
  }

  method FetchListingBySearchAsWritten(src: Source) returns (items: seq<Item>)
    ensures items == SearchAsWritten(src, "", MaxPages, {})
  {
    items := [];
    var seen: set<string> := {};
    var after := "";
    var page: nat := 0;
    while page < MaxPages
      invariant page <= MaxPages
      invariant items + SearchAsWritten(src, after, MaxPages - page, seen) == SearchAsWritten(src, "", MaxPages, {})
    {
      var res := src(after);
      SearchAsWrittenStep(src, after, MaxPages - page, seen);
      if !Received(res) {
        break;
      }
      var batch := Unseen(Batch(res.children), seen);
      seen := AddIds(batch, seen);
      ghost var rest := if res.after == "" then [] else SearchAsWritten(src, res.after, MaxPages - page - 1, seen);
      AppendAssoc(items, batch, rest);
      items := items + batch;
      page := page + 1;
      after := res.after;
      if after == "" {
        break;
      }
    }
  }

  /** One page listing the same post twice: the loop as written returns it
      twice, the per-child check once. */
  lemma SearchAsWrittenKeepsInPageDuplicate(x: Item)
    ensures SearchAsWritten((c: string) => Page([Child(Some(x)), Child(Some(x))], ""), "", MaxPages, {}) == [x, x]
    ensures DedupFrom(Collect((c: string) => Page([Child(Some(x)), Child(Some(x))], ""), "", MaxPages), {}) == [x]
  {
    var cs := [Child(Some(x)), Child(Some(x))];
    var src := (c: string) => Page(cs, "");
    assert Batch(cs) == [x, x] by {
      assert cs[1..] == [Child(Some(x))];
      assert cs[1..][1..] == [];
    }
    var xx := [x, x];
    assert xx[1..] == [x] && [x][1..] == [];
    assert Unseen([x], {}) == [x];
    assert Unseen(xx, {}) == [x] + Unseen([x], {});
    assert xx + [] == xx;
    SearchAsWrittenStep(src, "", MaxPages, {});
    CollectStep(src, "", MaxPages);
    var none: set<string> := {};
    assert none + {x.id} == {x.id};
    assert DedupFrom([x], {x.id}) == [];
    assert DedupFrom(xx, none) == [x] + DedupFrom([x], {x.id});
  }
}
