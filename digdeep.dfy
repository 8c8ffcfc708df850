// The "dig deep" browser: every fetched post and comment as one list that the
// user filters by kind and by a search text, orders by date or score, and
// pages through 25 rows at a time (`applyDDFilter`, `renderDDStats`,
// `renderDDPage`, `renderDDPagination`).

module DigDeep {
  import opened Numeric
  import opened Seqs
  import opened Text
  import opened Ranking
  import opened Items

  datatype Kind = PostRow | CommentRow

  /** One row of the list (`ddItems`): `type`, `id`, `title`, `body`, `sub`,
      `score`, `comments` and `date`. */
  datatype Row = Row(kind: Kind, id: string, title: string, body: string, sub: string,
                     score: int, comments: nat, date: int)

  /** A post's row: its title or "(untitled)", its self text. */
  function PostRowOf(p: Item): Row
  {
    Row(PostRow, p.id, if p.title == "" then "(untitled)" else p.title, p.selftext, p.subreddit,
        p.score, p.numComments, p.createdUtc)
  }

  /** A comment's row: the title of the post it answers or
      "(context unavailable)", its body. A comment row has no comment count. */
  function CommentRowOf(c: Item): Row
  {
    Row(CommentRow, c.id, if c.linkTitle == "" then "(context unavailable)" else c.linkTitle, c.body,
        c.subreddit, c.score, 0, c.createdUtc)
  }

  /** The posts' rows, then the comments' rows, each in fetch order. */
  function Rows(posts: seq<Item>, comments: seq<Item>): (r: seq<Row>)
    ensures |r| == |posts| + |comments|
    ensures forall i | 0 <= i < |posts| :: r[i] == PostRowOf(posts[i])
    ensures forall i | 0 <= i < |comments| :: r[|posts| + i] == CommentRowOf(comments[i])
  {
    seq(|posts|, i requires 0 <= i < |posts| => PostRowOf(posts[i]))
      + seq(|comments|, i requires 0 <= i < |comments| => CommentRowOf(comments[i]))
  }

  // ------------------------------------------------------------- filtering

  /** `(value || '').toLowerCase().trim()` */
  function Query(raw: string): string
  {
    Trim(Lower(raw))
  }

  /** The text a query is searched in: `${title} ${body} ${sub}`, lower-cased. */
  function Haystack(row: Row): string
  {
    Lower(row.title + " " + row.body + " " + row.sub)
  }

  /** The filter callback of `applyDDFilter`: the kind filter (`"posts"`,
      `"comments"`; any other value shows both kinds), then the search. */
  predicate Shown(row: Row, filter: string, query: string)
  {
    !(filter == "posts" && row.kind != PostRow)
    && !(filter == "comments" && row.kind != CommentRow)
    && (query == "" || Contains(Haystack(row), query))
  }

  function ShownBy(filter: string, query: string): Row -> bool
  {
    row => Shown(row, filter, query)
  }

  /** The sort key the comparator for `sort` orders by, ascending:
      `"date-asc"`, `"score-desc"`, `"score-asc"`, and newest first for any
      other value. */
  function SortKey(sort: string): Row -> int
  {
    if sort == "date-asc" then (row: Row) => row.date
    else if sort == "score-desc" then (row: Row) => -row.score
    else if sort == "score-asc" then (row: Row) => row.score
    else (row: Row) => -row.date
  }

  /** `ddFiltered` after `applyDDFilter`: the shown rows, stably sorted. */
  function Filtered(rows: seq<Row>, filter: string, raw: string, sort: string): seq<Row>
  {
    SortBy(Filter(rows, ShownBy(filter, Query(raw))), SortKey(sort))
  }

  /** A row is listed exactly when it is one of the rows and passes the
      filter, as often as it occurs among the shown rows. */
  lemma {:induction false} FilteredMembers(rows: seq<Row>, filter: string, raw: string, sort: string, x: Row)
    ensures x in Filtered(rows, filter, raw, sort) <==> x in rows && Shown(x, filter, Query(raw))
    ensures multiset(Filtered(rows, filter, raw, sort)) == multiset(Filter(rows, ShownBy(filter, Query(raw))))
  {
    var shown := Filter(rows, ShownBy(filter, Query(raw)));
    var r := Filtered(rows, filter, raw, sort);
    assert x in r <==> x in multiset(r);
    assert x in shown <==> x in multiset(shown);
    if x in rows && Shown(x, filter, Query(raw)) {
      var j :| 0 <= j < |rows| && rows[j] == x;
      FilterMember(rows, ShownBy(filter, Query(raw)), j);
    }
  }

  /** The list is in the order the sort asks for, and rows the order cannot
      tell apart keep their relative order. */
  lemma FilteredOrder(rows: seq<Row>, filter: string, raw: string, sort: string, v: int)
    ensures var r, key := Filtered(rows, filter, raw, sort), SortKey(sort);
      forall i, j | 0 <= i < j < |r| :: key(r[i]) <= key(r[j])
    ensures Tie(Filtered(rows, filter, raw, sort), SortKey(sort), v)
         == Tie(Filter(rows, ShownBy(filter, Query(raw))), SortKey(sort), v)
  {
  }

  /** Newest first by default; highest score first for "score-desc". */
  lemma SortDirections(rows: seq<Row>, filter: string, raw: string, sort: string, i: nat, j: nat)
    requires var r := Filtered(rows, filter, raw, sort); i < j < |r|
    ensures var r := Filtered(rows, filter, raw, sort);
      && (sort == "date-asc" ==> r[i].date <= r[j].date)
      && (sort == "score-desc" ==> r[i].score >= r[j].score)
      && (sort == "score-asc" ==> r[i].score <= r[j].score)
      && (sort !in {"date-asc", "score-desc", "score-asc"} ==> r[i].date >= r[j].date)
  {
    var r := Filtered(rows, filter, raw, sort);
    assert SortKey(sort)(r[i]) <= SortKey(sort)(r[j]);
  }

  /** The "all" filter with an empty search lists every row; "posts" lists
      only posts and "comments" only comments. */
  lemma FilterKinds(rows: seq<Row>, raw: string, sort: string)
    ensures Query(raw) == "" ==> multiset(Filtered(rows, "all", raw, sort)) == multiset(rows)
    ensures forall x | x in Filtered(rows, "posts", raw, sort) :: x.kind == PostRow
    ensures forall x | x in Filtered(rows, "comments", raw, sort) :: x.kind == CommentRow
  {
    if Query(raw) == "" {
      FilterAll(rows, ShownBy("all", Query(raw)));
    }
    forall x | x in Filtered(rows, "posts", raw, sort) ensures x.kind == PostRow {
      FilteredMembers(rows, "posts", raw, sort, x);
    }
    forall x | x in Filtered(rows, "comments", raw, sort) ensures x.kind == CommentRow {
      FilteredMembers(rows, "comments", raw, sort, x);
    }
  }

  lemma {:induction false} FilterAll<T>(s: seq<T>, p: T -> bool)
    requires forall x | x in s :: p(x)
    ensures Filter(s, p) == s
  {
    if s != [] {
      FilterAll(s[1..], p);
    }
  }

  // ----------------------------------------------------------------- stats

  function IsPostRow(row: Row): bool { row.kind == PostRow }
  function IsCommentRow(row: Row): bool { row.kind == CommentRow }

  function TotalScore(rows: seq<Row>): int
  {
    if rows == [] then 0 else TotalScore(rows[..|rows| - 1]) + rows[|rows| - 1].score
  }

  /** The stats bar: results, posts, comments, total score and page count. */
  datatype Stats = Stats(results: nat, posts: nat, comments: nat, totalScore: int, pages: nat)

  function StatsOf(filtered: seq<Row>): Stats
  {
    Stats(|filtered|, CountWhere(filtered, IsPostRow), CountWhere(filtered, IsCommentRow),
          TotalScore(filtered), PageCount(|filtered|))
  }

  /** Every result is a post or a comment. */
  lemma {:induction false} StatsPartition(filtered: seq<Row>)
    ensures StatsOf(filtered).posts + StatsOf(filtered).comments == StatsOf(filtered).results
  {
    if filtered != [] {
      var init := filtered[..|filtered| - 1];
      StatsPartition(init);
      assert filtered == init + [filtered[|filtered| - 1]];
      CountWhereSnoc(init, filtered[|filtered| - 1], IsPostRow);
      CountWhereSnoc(init, filtered[|filtered| - 1], IsCommentRow);
    }
  }

  // ------------------------------------------------------------- pagination

  const PageSize: nat := 25
  const MaxButtons: nat := 7

  /** `Math.ceil(count / DD_PAGE_SIZE)` */
  function PageCount(count: nat): nat
  {
    (count + PageSize - 1) / PageSize
  }

  /** The page count is the least number of pages of 25 that hold every row. */
  lemma PageCountMeaning(count: nat)
    ensures PageSize * PageCount(count) >= count
    ensures count > 0 ==> PageSize * (PageCount(count) - 1) < count
    ensures count == 0 <==> PageCount(count) == 0
  {
    MulDivBounds(count + PageSize - 1, PageSize);
  }

  /** `ddFiltered.slice(ddPage * 25, ddPage * 25 + 25)` */
  function PageRows(filtered: seq<Row>, page: nat): seq<Row>
  {
    Slice(filtered, page * PageSize, page * PageSize + PageSize)
  }

  /** A page holds the 25 rows from `25 * page` on, fewer on the last page,
      and none ("No results found.") exactly from the page count on. */
  lemma PageRowsProperties(filtered: seq<Row>, page: nat)
    ensures var r := PageRows(filtered, page);
      && |r| <= PageSize
      && (forall k | 0 <= k < |r| :: r[k] == filtered[page * PageSize + k])
      && (r == [] <==> page >= PageCount(|filtered|))
  {
    PageCountMeaning(|filtered|);
    var n := |filtered|;
    if page < PageCount(n) {
      assert PageSize * page <= PageSize * (PageCount(n) - 1) by {
        MulMonotone(PageSize, page, PageCount(n) - 1);
      }
    } else {
      MulMonotone(PageSize, PageCount(n), page);
    }
  }

  /** The first and one-past-last page of the numbered buttons: up to seven,
      starting three before the current page and pulled back from the end. */
  function Window(total: nat, page: nat): (nat, nat)
  {
    var start := if page >= 3 then page - 3 else 0;
    var end := if total <= start + MaxButtons then total else start + MaxButtons;
    if end < start + MaxButtons then (if end >= MaxButtons then end - MaxButtons else 0, end)
    else (start, end)
  }

  /** For a page that exists, the window holds it, lies within the pages and
      is seven wide (or all pages when there are fewer); away from both ends
      the current page is the fourth button. */
  lemma WindowProperties(total: nat, page: nat)
    requires page < total
    ensures var (start, end) := Window(total, page);
      && start <= page < end <= total
      && end - start == Min(MaxButtons, total)
      && (3 <= page && page + 4 <= total ==> start == page - 3)
  {
  }

  datatype PageButton = Prev(target: nat) | Number(index: nat, active: bool) | Next(target: nat)

  /** One numbered button per page of the window, the current one active. */
  function Numbers(lo: nat, hi: nat, page: nat): (r: seq<PageButton>)
    ensures |r| == if lo <= hi then hi - lo else 0
    ensures forall k | 0 <= k < |r| :: r[k] == Number(lo + k, lo + k == page)
    decreases hi - lo
  {
    if lo >= hi then [] else [Number(lo, lo == page)] + Numbers(lo + 1, hi, page)
  }

  /** The buttons of `renderDDPagination`: none for a single page; otherwise
      "Prev" after the first page, the window, and "Next" before the last. */
  function Pagination(count: nat, page: nat): seq<PageButton>
  {
    var total := PageCount(count);
    if total <= 1 then []
    else
      var (start, end) := Window(total, page);
      (if page > 0 then [Prev(page - 1)] else []) + Numbers(start, end, page)
        + (if page < total - 1 then [Next(page + 1)] else [])
  }

  /** On an existing page: "Prev" leads to the page before and "Next" to the
      page after, each shown exactly when that page exists; every button
      leads to an existing page; the current page's button is there, and it
      is the only active one. */
  lemma PaginationProperties(count: nat, page: nat)
    requires 2 <= PageCount(count) && page < PageCount(count)
    ensures var btns, total := Pagination(count, page), PageCount(count);
      && (page > 0 ==> Prev(page - 1) in btns)
      && (page == 0 ==> forall b | b in btns :: !b.Prev?)
      && (page < total - 1 ==> Next(page + 1) in btns)
      && (page == total - 1 ==> forall b | b in btns :: !b.Next?)
      && (forall b | b in btns :: b.Prev? ==> b.target == page - 1)
      && (forall b | b in btns :: b.Next? ==> b.target == page + 1)
      && (forall b | b in btns :: (if b.Number? then b.index else b.target) < total)
      && Number(page, true) in btns
      && (forall b | b in btns && b.Number? && b.active :: b.index == page)
  {
    var total := PageCount(count);
    var (start, end) := Window(total, page);
    WindowProperties(total, page);
    var nums := Numbers(start, end, page);
    assert nums[page - start] == Number(page, true);
  }

  /** The loop `for (let i = start; i < end; i++)` of `renderDDPagination`. */
  method NumberButtons(start: nat, end: nat, page: nat) returns (btns: seq<PageButton>)
    ensures btns == Numbers(start, end, page)
  {
    btns := [];
    for i := start to (if end >= start then end else start)
      invariant btns == Numbers(start, i, page)
    {
      btns := btns + [Number(i, i == page)];
    }
  }

  /** `renderDDPagination`: push "Prev", one button per page of the
      window, then "Next". */
  method RenderPagination(count: nat, page: nat) returns (btns: seq<PageButton>)
    ensures btns == Pagination(count, page)
  {
    var total := PageCount(count);
    if total <= 1 {
      return [];
    }
    var (start, end) := Window(total, page);
    var numbers := NumberButtons(start, end, page);
    btns := (if page > 0 then [Prev(page - 1)] else []) + numbers;
    if page < total - 1 {
      btns := btns + [Next(page + 1)];
    }
  }
}
