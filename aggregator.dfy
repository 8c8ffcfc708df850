// The aggregator (`analyzeData`): every number the dashboard shows, computed
// from the profile, the posts and the comments.

module Aggregator {
  import opened Wrappers
  import opened Numeric
  import opened Seqs
  import opened Text
  import opened Ranking
  import opened Items
  import Sentiment
  import WordFrequency
  import Persona

  // ------------------------------------------------------------- subreddits

  const TopSubreddits: nat := 8

  /** One row of the subreddit table: `{ name, count, pct }`. */
  datatype SubShare = SubShare(name: string, count: nat, pct: int)

  /** `item.subreddit` of every item, in order. */
  function SubredditNames(items: seq<Item>): (r: seq<string>)
    ensures |r| == |items|
  {
    seq(|items|, i requires 0 <= i < |items| => items[i].subreddit)
  }

  /** `if (item.subreddit)`: only a non-empty name is counted. */
  predicate NonEmpty(name: string) { name != "" }

  /** The names counted into `subCount`, in order. */
  function CountedSubreddits(items: seq<Item>): seq<string>
  {
    Filter(SubredditNames(items), NonEmpty)
  }

  /** `.map(([name, count]) => ({ name, count, pct: Math.round(count / total * 100) }))` */
  function Shares(es: seq<Entry<string>>, total: nat): (r: seq<SubShare>)
    requires es == [] || total > 0
    ensures |r| == |es|
  {
    seq(|es|, i requires 0 <= i < |es| => SubShare(es[i].key, es[i].count, RoundDiv(100 * es[i].count, total)))
  }

  /** `topSubs`: the eight most frequent subreddits, each with its share of all
      items (also those without a subreddit) in percent. */
  function TopSubsOf(posts: seq<Item>, comments: seq<Item>): seq<SubShare>
  {
    var all := posts + comments;
    var names := CountedSubreddits(all);
    Shares(Take(Rank(Tally(names)), TopSubreddits), |all|)
  }

  /** Names of the rows of the subreddit table. */
  function ShareNames(rows: seq<SubShare>): (r: seq<string>)
    ensures |r| == |rows|
  {
    seq(|rows|, i requires 0 <= i < |rows| => rows[i].name)
  }

  /** At most eight rows, highest count first, no name twice. */
  lemma TopSubsShape(posts: seq<Item>, comments: seq<Item>)
    ensures var rows := TopSubsOf(posts, comments);
      && |rows| <= TopSubreddits
      && (forall i, j | 0 <= i < j < |rows| :: rows[i].count >= rows[j].count)
      && NoDups(ShareNames(rows))
  {
    var names := CountedSubreddits(posts + comments);
    var top := Take(Rank(Tally(names)), TopSubreddits);
    TopTallyProperties(names, TopSubreddits);
    TopTallyDistinct(names, TopSubreddits);
    assert ShareNames(TopSubsOf(posts, comments)) == Keys(top);
  }

  /** Every name is non-empty, its count is its number of occurrences among
      the items, and its share is that count over all items in percent, rounded. */
  lemma TopSubsRow(posts: seq<Item>, comments: seq<Item>, i: nat)
    requires i < |TopSubsOf(posts, comments)|
    ensures var row := TopSubsOf(posts, comments)[i];
      && row.name != ""
      && row.count == multiset(CountedSubreddits(posts + comments))[row.name] > 0
      && row.pct == RoundDiv(100 * row.count, |posts| + |comments|)
      && 0 <= row.pct <= 100
  {
    var all := posts + comments;
    var names := CountedSubreddits(all);
    var top := Take(Rank(Tally(names)), TopSubreddits);
    TopTallyProperties(names, TopSubreddits);
    assert top[i].key in names;
    assert top[i].count <= |names| by {
      assert multiset(names)[top[i].key] <= |multiset(names)|;
    }
    PercentInRange(top[i].count, |all|);
  }

  /** The `subCount` loop over all items, then the sorted, cut and mapped entries. */
  method BuildTopSubs(posts: seq<Item>, comments: seq<Item>) returns (topSubs: seq<SubShare>)
    ensures topSubs == TopSubsOf(posts, comments)
  {
    var all := posts + comments;
    var counts, order := CountKept(map[], [], [], SubredditNames(all), NonEmpty);
    assert [] + CountedSubreddits(all) == CountedSubreddits(all);
    CountedEntries(counts, order, CountedSubreddits(all));
    var entries := seq(|order|, k requires 0 <= k < |order| => Entry(order[k], counts[order[k]]));
    topSubs := Shares(Take(Rank(entries), TopSubreddits), |all|);
  }

  /** Shares are rounded one by one, so they can add up to more than 100:
      eight subreddits with one item each have 13% apiece. */
  lemma SharesCanExceedHundred()
    ensures var es := seq(8, i requires 0 <= i < 8 => Entry("sub", 1));
      var rows := Shares(es, 8);
      |rows| == 8 && forall i | 0 <= i < 8 :: rows[i].pct == 13
  {
    var es := seq(8, i requires 0 <= i < 8 => Entry("sub", 1));
    var rows := Shares(es, 8);
    forall i | 0 <= i < 8 ensures rows[i].pct == 13 {
      assert rows[i].pct == RoundDiv(100, 8);
    }
  }

  // ------------------------------------------------------------- histograms

  /** The two clocks `analyzeData` buckets timestamps by. */
  datatype Clock = HourOfDay | DayOfWeek

  function Buckets(c: Clock): nat
  {
    match c
    case HourOfDay => 24
    case DayOfWeek => 7
  }

  /** `getHours()` or `getDay()` of a timestamp. */
  function BucketOf(c: Clock, t: int, offset: int): (b: nat)
    ensures b < Buckets(c)
  {
    match c
    case HourOfDay => HourOf(t, offset)
    case DayOfWeek => WeekdayOf(t, offset)
  }

  /** `new Array(n).fill(0)` after the items so far were counted: items are
      taken from the end so that a left-to-right loop extends the prefix. */
  function Histogram(items: seq<Item>, c: Clock, offset: int): (h: seq<nat>)
    ensures |h| == Buckets(c)
  {
    if items == [] then seq(Buckets(c), _ => 0)
    else
      var h := Histogram(items[..|items| - 1], c, offset);
      var it := items[|items| - 1];
      if HasTimestamp(it) then
        var b := BucketOf(c, it.createdUtc, offset);
        h[b := h[b] + 1]
      else h
  }

  /** An item timestamped in bucket `b`. */
  function InBucket(c: Clock, offset: int, b: nat): Item -> bool
  {
    it => HasTimestamp(it) && BucketOf(c, it.createdUtc, offset) == b
  }

  /** Each bucket counts the timestamped items that fall into it. */
  lemma {:induction false} HistogramCounts(items: seq<Item>, c: Clock, offset: int, b: nat)
    requires b < Buckets(c)
    ensures Histogram(items, c, offset)[b] == CountWhere(items, InBucket(c, offset, b))
  {
    if items != [] {
      var init := items[..|items| - 1];
      var it := items[|items| - 1];
      HistogramCounts(init, c, offset, b);
      assert items == init + [it];
      CountWhereSnoc(init, it, InBucket(c, offset, b));
    }
  }

  /** The buckets add up to the number of timestamped items. */
  lemma {:induction false} HistogramTotal(items: seq<Item>, c: Clock, offset: int)
    ensures Sum(Histogram(items, c, offset)) == CountWhere(items, HasTimestamp)
  {
    if items == [] {
      assert Sum(seq(Buckets(c), _ => 0)) == 0 by {
        ZeroSum(Buckets(c));
      }
    } else {
      var init := items[..|items| - 1];
      var it := items[|items| - 1];
      HistogramTotal(init, c, offset);
      assert items == init + [it];
      CountWhereSnoc(init, it, HasTimestamp);
      if HasTimestamp(it) {
        SumIncrement(Histogram(init, c, offset), BucketOf(c, it.createdUtc, offset));
      }
    }
  }

  lemma {:induction false} ZeroSum(n: nat)
    ensures Sum(seq(n, _ => 0)) == 0
  {
    if n > 0 {
      assert seq(n, _ => 0)[1..] == seq(n - 1, _ => 0);
      ZeroSum(n - 1);
    }
  }

  /** `const dist = new Array(n).fill(0); allItems.forEach(item => { if
      (item.created_utc) dist[bucket(item)]++; });` */
  method BuildHistogram(items: seq<Item>, c: Clock, offset: int) returns (dist: seq<nat>)
    ensures dist == Histogram(items, c, offset)
  {
    var a := new nat[Buckets(c)](_ => 0);
    assert a[..] == seq(Buckets(c), _ => 0);
    for i := 0 to |items|
      invariant a[..] == Histogram(items[..i], c, offset)
    {
      assert items[..i + 1][..i] == items[..i];
      var it := items[i];
      if it.createdUtc != 0 {
        var b := BucketOf(c, it.createdUtc, offset);
        a[b] := a[b] + 1;
      }
    }
    assert items[..|items|] == items;
    dist := a[..];
  }

  function NatValue(n: nat): int { n }

  /** `dist.indexOf(Math.max(...dist))`: the first bucket holding the maximum. */
  function Peak(dist: seq<nat>): (k: nat)
    requires dist != []
    ensures k < |dist|
    ensures forall j | 0 <= j < |dist| :: dist[j] <= dist[k]
    ensures forall j | 0 <= j < k :: dist[j] < dist[k]
  {
    FirstMax(dist, NatValue)
  }

  // ---------------------------------------------------------- content types

  datatype Kind = VideoPost | GalleryPost | TextPost | ImagePost | LinkPost

  const ImageExtensions: seq<string> := [".jpg", ".jpeg", ".png", ".gif", ".webp"]

  /** `/\.(jpg|jpeg|png|gif|webp)/i.test(url)` */
  predicate HasImageExtension(url: string)
  {
    exists e | e in ImageExtensions :: Contains(AsciiLower(url), e)
  }

  /** The if-chain of the content-type breakdown. */
  function KindOf(p: Item): Kind
  {
    if p.isVideo then VideoPost
    else if p.isGallery then GalleryPost
    else if p.isSelf then TextPost
    else if p.url != "" && HasImageExtension(p.url) then ImagePost
    else LinkPost
  }

  /** `typeMap`: `{ image, link, text, video, gallery }`. */
  datatype TypeCounts = TypeCounts(image: nat, link: nat, text: nat, video: nat, gallery: nat)

  function CountOf(t: TypeCounts, k: Kind): nat
  {
    match k
    case ImagePost => t.image
    case LinkPost => t.link
    case TextPost => t.text
    case VideoPost => t.video
    case GalleryPost => t.gallery
  }

  function Total(t: TypeCounts): nat
  {
    t.image + t.link + t.text + t.video + t.gallery
  }

  /** `typeMap[kind]++` */
  function Bumped(t: TypeCounts, k: Kind): TypeCounts
  {
    match k
    case ImagePost => t.(image := t.image + 1)
    case LinkPost => t.(link := t.link + 1)
    case TextPost => t.(text := t.text + 1)
    case VideoPost => t.(video := t.video + 1)
    case GalleryPost => t.(gallery := t.gallery + 1)
  }

  /** The breakdown after the posts so far were classified. */
  function TypeCountsOf(posts: seq<Item>): TypeCounts
  {
    if posts == [] then TypeCounts(0, 0, 0, 0, 0)
    else Bumped(TypeCountsOf(posts[..|posts| - 1]), KindOf(posts[|posts| - 1]))
  }

  function IsKind(k: Kind): Item -> bool
  {
    p => KindOf(p) == k
  }

  /** Every post increments exactly one count, so the counts add up to the
      number of posts. */
  lemma {:induction false} TypeCountsTotal(posts: seq<Item>)
    ensures Total(TypeCountsOf(posts)) == |posts|
  {
    if posts != [] {
      TypeCountsTotal(posts[..|posts| - 1]);
    }
  }

  /** Each count is the number of posts of its kind. */
  lemma {:induction false} TypeCountsCount(posts: seq<Item>, k: Kind)
    ensures CountOf(TypeCountsOf(posts), k) == CountWhere(posts, IsKind(k))
  {
    if posts != [] {
      var init := posts[..|posts| - 1];
      var p := posts[|posts| - 1];
      TypeCountsCount(init, k);
      assert posts == init + [p];
      CountWhereSnoc(init, p, IsKind(k));
    }
  }

  /** `posts.forEach(p => { ... typeMap[kind]++ })` */
  method CountContentTypes(posts: seq<Item>) returns (t: TypeCounts)
    ensures t == TypeCountsOf(posts)
  {
    t := TypeCounts(0, 0, 0, 0, 0);
    for i := 0 to |posts|
      invariant t == TypeCountsOf(posts[..i])
    {
      assert posts[..i + 1][..i] == posts[..i];
      var p := posts[i];
      if p.isVideo {
        t := t.(video := t.video + 1);
      } else if p.isGallery {
        t := t.(gallery := t.gallery + 1);
      } else if p.isSelf {
        t := t.(text := t.text + 1);
      } else if p.url != "" && HasImageExtension(p.url) {
        t := t.(image := t.image + 1);
      } else {
        t := t.(link := t.link + 1);
      }
    }
    assert posts[..|posts|] == posts;
  }

  // --------------------------------------------------------------- best items

  function ItemScore(it: Item): int { it.score }

  /** `items.length ? items.reduce((a, b) => b.score > a.score ? b : a) : null` */
  function TopByScore(items: seq<Item>): Option<Item>
  {
    if items == [] then None else Some(items[FirstMax(items, ItemScore)])
  }

  /** The best item exists exactly when there are items; no item scores
      higher, and every item before it scores lower: ties go to the first. */
  lemma TopByScoreProperties(items: seq<Item>)
    ensures TopByScore(items).Some? <==> items != []
    ensures TopByScore(items).Some? ==>
      exists k | 0 <= k < |items| :: && items[k] == TopByScore(items).value
                                      && (forall j | 0 <= j < |items| :: items[j].score <= items[k].score)
                                      && (forall j | 0 <= j < k :: items[j].score < items[k].score)
  {
    if items != [] {
      var k := FirstMax(items, ItemScore);
      assert forall j | 0 <= j < |items| :: ItemScore(items[j]) <= ItemScore(items[k]);
      assert forall j | 0 <= j < k :: ItemScore(items[j]) < ItemScore(items[k]);
    }
  }

  // ---------------------------------------------------------------- averages

  function Scores(items: seq<Item>): (r: seq<int>)
    ensures |r| == |items|
  {
    seq(|items|, i requires 0 <= i < |items| => items[i].score)
  }

  function CommentCounts(items: seq<Item>): (r: seq<int>)
    ensures |r| == |items|
  {
    seq(|items|, i requires 0 <= i < |items| => items[i].numComments)
  }

  /** `posts.length ? Math.round(sum of scores / posts.length) : 0` */
  function AvgPostScore(posts: seq<Item>): int
  {
    if posts == [] then 0 else RoundDiv(Sum(Scores(posts)), |posts|)
  }

  /** `(sum of num_comments / posts.length).toFixed(1)`, in tenths; 0 without posts. */
  function AvgCommentsTenths(posts: seq<Item>): int
  {
    if posts == [] then 0 else RoundDiv(10 * Sum(CommentCounts(posts)), |posts|)
  }

  /** A rounded average is at least the least value... */
  lemma {:induction false} RoundedAverageAtLeast(s: seq<int>, lo: int, scale: nat)
    requires s != []
    requires forall i | 0 <= i < |s| :: lo <= s[i]
    ensures scale * lo <= RoundDiv(scale * Sum(s), |s|)
  {
    var n, total := |s|, Sum(s);
    SumAtLeast(s, lo);
    var least := n * lo;
    MulMonotone(scale, least, total);
    assert 2 * n * (scale * lo) == 2 * (scale * least) by {
      assert n * (scale * lo) == scale * (n * lo);
    }
    RoundDivAtLeast(scale * total, n, scale * lo);
  }

  /** ...and at most the greatest. */
  lemma {:induction false} RoundedAverageAtMost(s: seq<int>, hi: int, scale: nat)
    requires s != []
    requires forall i | 0 <= i < |s| :: s[i] <= hi
    ensures RoundDiv(scale * Sum(s), |s|) <= scale * hi
  {
    var n, total := |s|, Sum(s);
    SumAtMost(s, hi);
    var most := n * hi;
    MulMonotone(scale, total, most);
    assert 2 * n * (scale * hi + 1) == 2 * (scale * most) + 2 * n by {
      assert n * (scale * hi) == scale * (n * hi);
    }
    RoundDivAtLeast(scale * total, n, scale * hi + 1);
  }

  /** The average score lies between the lowest and the highest post score. */
  lemma AvgPostScoreBetween(posts: seq<Item>, lo: int, hi: int)
    requires posts != []
    requires forall p | p in posts :: lo <= p.score <= hi
    ensures lo <= AvgPostScore(posts) <= hi
  {
    var s := Scores(posts);
    RoundedAverageAtLeast(s, lo, 1);
    RoundedAverageAtMost(s, hi, 1);
    assert 1 * Sum(s) == Sum(s) && 1 * lo == lo && 1 * hi == hi;
  }

  /** The average comment count, in tenths, lies between ten times the fewest
      and ten times the most comments of a post. */
  lemma AvgCommentsBetween(posts: seq<Item>, lo: int, hi: int)
    requires posts != []
    requires forall p | p in posts :: lo <= p.numComments <= hi
    ensures 10 * lo <= AvgCommentsTenths(posts) <= 10 * hi
  {
    RoundedAverageAtLeast(CommentCounts(posts), lo, 10);
    RoundedAverageAtMost(CommentCounts(posts), hi, 10);
  }

  /** `ageMonths > 0 ? (posts.length / ageMonths).toFixed(1) : posts.length`, in
      tenths, with `ageMonths = (now - created) / (60*60*24*30)`. */
  function PostsPerMonthTenths(created: int, now: int, posts: nat): int
  {
    if now > created then RoundDiv(10 * posts * SecondsPerMonth, now - created) else 10 * posts
  }

  /** Over an account exactly `months` thirty-day months old the rate is the
      number of posts per month; more posts never give a lower rate. */
  lemma PostsPerMonthProperties(created: int, months: nat, posts: nat, more: nat)
    requires months > 0 && posts <= more
    ensures var now := created + months * SecondsPerMonth;
      && PostsPerMonthTenths(created, now, posts) == RoundDiv(10 * posts, months)
      && PostsPerMonthTenths(created, now, posts) <= PostsPerMonthTenths(created, now, more)
  {
    var age := months * SecondsPerMonth;
    var r := RoundDiv(10 * posts * SecondsPerMonth, age);
    var q := RoundDiv(10 * posts, months);
    assert 2 * age * q <= 2 * (10 * posts * SecondsPerMonth) + age < 2 * age * q + 2 * age by {
      assert 2 * age * q == SecondsPerMonth * (2 * months * q);
      assert 2 * (10 * posts * SecondsPerMonth) + age == SecondsPerMonth * (2 * (10 * posts) + months);
      assert 2 * age * q + 2 * age == SecondsPerMonth * (2 * months * q + 2 * months);
      MulMonotone(SecondsPerMonth, 2 * months * q, 2 * (10 * posts) + months);
      MulStrict(SecondsPerMonth, 2 * (10 * posts) + months, 2 * months * q + 2 * months);
    }
    RoundDivUnique(10 * posts * SecondsPerMonth, age, q);
    RoundDivMonotone(10 * posts * SecondsPerMonth, 10 * more * SecondsPerMonth, age);
  }

  lemma MulStrict(k: int, x: int, y: int)
    requires k > 0 && x < y
    ensures k * x < k * y
  {
  }

  /** `Math.round(a / b)` is the only integer within a half of `a / b`. */
  lemma RoundDivUnique(a: int, b: int, q: int)
    requires b > 0
    requires 2 * b * q <= 2 * a + b < 2 * b * q + 2 * b
    ensures RoundDiv(a, b) == q
  {
    RoundDivAtLeast(a, b, q);
    RoundDivAtLeast(a, b, q + 1);
  }

  /** `posts.length > 0 ? (comments.length / posts.length).toFixed(1) : comments.length`,
      in tenths. */
  function RatioTenths(posts: nat, comments: nat): int
  {
    if posts > 0 then RoundDiv(10 * comments, posts) else 10 * comments
  }

  /** With posts, the ratio reaches `k` tenths exactly when comments per post
      reach `k / 10` less a twentieth; without posts it is the comment count. */
  lemma RatioMeaning(posts: nat, comments: nat, k: int)
    ensures posts > 0 ==> (RatioTenths(posts, comments) >= k <==> 2 * posts * k <= 20 * comments + posts)
    ensures posts == 0 ==> RatioTenths(posts, comments) == 10 * comments
  {
    if posts > 0 {
      RoundDivAtLeast(10 * comments, posts, k);
    }
  }

  /** `p.upvote_ratio && p.upvote_ratio < 0.6` */
  predicate IsControversial(p: Item) { 0 < p.upvoteRatio < 60 }

  /** `posts.length ? Math.round(controversial / posts.length * 100) : 0` */
  function Controversiality(posts: seq<Item>): int
  {
    if posts == [] then 0 else RoundDiv(100 * CountWhere(posts, IsControversial), |posts|)
  }

  /** A percentage, zero when no post is controversial and 100 when all are. */
  lemma ControversialityProperties(posts: seq<Item>)
    ensures 0 <= Controversiality(posts) <= 100
    ensures CountWhere(posts, IsControversial) == 0 ==> Controversiality(posts) == 0
    ensures posts != [] && CountWhere(posts, IsControversial) == |posts| ==> Controversiality(posts) == 100
  {
    if posts != [] {
      var n := |posts|;
      var c := CountWhere(posts, IsControversial);
      PercentInRange(c, n);
      if c == 0 { RoundDivUnique(0, n, 0); }
      if c == n { RoundDivUnique(100 * n, n, 100); }
    }
  }

  // ---------------------------------------------------------- most active day

  /** The calendar days of the timestamped items, in order. */
  function Days(items: seq<Item>, offset: int): seq<int>
  {
    if items == [] then []
    else
      var it := items[|items| - 1];
      Days(items[..|items| - 1], offset) + (if HasTimestamp(it) then [DayNumber(it.createdUtc, offset)] else [])
  }

  /** `Object.entries(dayMap).sort((a, b) => b[1] - a[1])[0] || null`. The
      keys of `dayMap` are dates, so their order is insertion order. */
  function MostActiveDayOf(items: seq<Item>, offset: int): Option<Entry<int>>
  {
    var r := Rank(Tally(Days(items, offset)));
    if r == [] then None else Some(r[0])
  }

  /** There is a most active day exactly when some item has a timestamp, and
      it is the first-seen day with the highest count. */
  lemma MostActiveDayFirstMax(items: seq<Item>, offset: int)
    ensures var days := Days(items, offset);
      && (MostActiveDayOf(items, offset).Some? <==> days != [])
      && (days != [] ==> MostActiveDayOf(items, offset) == Some(Tally(days)[FirstMax(Tally(days), EntryCount)]))
  {
    var days := Days(items, offset);
    var t := Tally(days);
    if days != [] {
      assert days[0] in Distinct(days);
      RankHeadIsFirstMax(t);
    } else {
      assert t == [];
    }
  }

  /** No day has more items than the most active one. */
  lemma MostActiveDayMaximal(items: seq<Item>, offset: int, d: int)
    requires d in Days(items, offset)
    ensures MostActiveDayOf(items, offset).Some?
    ensures multiset(Days(items, offset))[d] <= MostActiveDayOf(items, offset).value.count
  {
    var days := Days(items, offset);
    var t := Tally(days);
    MostActiveDayFirstMax(items, offset);
    var k := FirstMax(t, EntryCount);
    var j :| 0 <= j < |Distinct(days)| && Distinct(days)[j] == d;
    assert t[j].count == multiset(days)[d];
    assert EntryCount(t[j]) <= EntryCount(t[k]);
  }

  lemma DaysStep(items: seq<Item>, offset: int, i: nat)
    requires i < |items|
    ensures Days(items[..i + 1], offset)
      == Days(items[..i], offset) + (if HasTimestamp(items[i]) then [DayNumber(items[i].createdUtc, offset)] else [])
  {
    assert items[..i + 1][..i] == items[..i];
  }

  /** The `dayMap` loop: skip items without a timestamp, count the others by day. */
  method CountDays(items: seq<Item>, offset: int) returns (counts: map<int, nat>, order: seq<int>)
    ensures Counted(counts, order, Days(items, offset))
  {
    counts, order := map[], [];
    for i := 0 to |items|
      invariant Counted(counts, order, Days(items[..i], offset))
    {
      DaysStep(items, offset, i);
      var it := items[i];
      if it.createdUtc != 0 {
        counts, order := Bump(counts, order, Days(items[..i], offset), DayNumber(it.createdUtc, offset));
      } else {
        assert Days(items[..i], offset) + [] == Days(items[..i], offset);
      }
    }
    assert items[..|items|] == items;
  }

  /** `Object.entries(dayMap).sort(...)[0] || null` after the `dayMap` loop. */
  method FindMostActiveDay(items: seq<Item>, offset: int) returns (day: Option<Entry<int>>)
    ensures day == MostActiveDayOf(items, offset)
  {
    var counts, order := CountDays(items, offset);
    CountedEntries(counts, order, Days(items, offset));
    var ranked := Rank(seq(|order|, k requires 0 <= k < |order| => Entry(order[k], counts[order[k]])));
    day := if ranked == [] then None else Some(ranked[0]);
  }

  // --------------------------------------------------------------- the result

  function Awards(items: seq<Item>): nat
  {
    if items == [] then 0 else Awards(items[..|items| - 1]) + items[|items| - 1].totalAwards
  }

  /** The award total of two runs of items is the sum of their totals, so each
      item's awards are counted once, whichever list it comes from. */
  lemma {:induction false} AwardsAppend(a: seq<Item>, b: seq<Item>)
    ensures Awards(a + b) == Awards(a) + Awards(b)
  {
    if b != [] {
      var init := b[..|b| - 1];
      assert (a + b)[..|a + b| - 1] == a + init;
      assert (a + b)[|a + b| - 1] == b[|b| - 1];
      AwardsAppend(a, init);
    } else {
      assert a + b == a;
    }
  }

  /** One item contributes exactly its own awards. */
  lemma AwardsSingle(x: Item)
    ensures Awards([x]) == x.totalAwards
  {
    assert [x][..0] == [];
  }

  /** The object `analyzeData` returns. Ratios are in tenths. */
  datatype Metrics = Metrics(
    topSubs: seq<SubShare>,
    hourDist: seq<nat>,
    dowDist: seq<nat>,
    typeMap: TypeCounts,
    topPost: Option<Item>,
    topComment: Option<Item>,
    avgPostScore: int,
    avgCommentsTenths: int,
    postsPerMonthTenths: int,
    ratioTenths: int,
    controversiality: int,
    sentimentScore: int,
    wordFreq: seq<Entry<string>>,
    mostActiveDay: Option<Entry<int>>,
    peakHour: nat,
    peakDow: nat,
    awards: nat,
    persona: Persona.Card,
    totalItems: nat)

  /** The arguments `analyzeData` hands to `detectPersona`. */
  function PersonaSignals(posts: seq<Item>, comments: seq<Item>, offset: int): Persona.Signals
  {
    Persona.Signals(|posts|, |comments|, ShareNames(TopSubsOf(posts, comments)),
      RatioTenths(|posts|, |comments|), AvgPostScore(posts),
      Sentiment.SentimentOf(posts, comments), Histogram(posts + comments, HourOfDay, offset))
  }

  /** `analyzeData(profile, posts, comments)` as a value, at time `now`. */
  function MetricsOf(profile: Profile, posts: seq<Item>, comments: seq<Item>, now: int, offset: int): Metrics
  {
    var all := posts + comments;
    var hours := Histogram(all, HourOfDay, offset);
    var days := Histogram(all, DayOfWeek, offset);
    Metrics(
      TopSubsOf(posts, comments), hours, days, TypeCountsOf(posts),
      TopByScore(posts), TopByScore(comments),
      AvgPostScore(posts), AvgCommentsTenths(posts),
      PostsPerMonthTenths(profile.createdUtc, now, |posts|),
      RatioTenths(|posts|, |comments|), Controversiality(posts),
      Sentiment.SentimentOf(posts, comments), WordFrequency.WordFrequencyOf(posts, comments),
      MostActiveDayOf(all, offset), Peak(hours), Peak(days), Awards(all),
      Persona.DetectPersona(PersonaSignals(posts, comments, offset)),
      |posts| + |comments|)
  }

  /** `analyzeData`: the counting maps and histograms are filled in place,
      everything else is computed from them. */
  method AnalyzeData(profile: Profile, posts: seq<Item>, comments: seq<Item>, now: int, offset: int)
    returns (m: Metrics)
    ensures m == MetricsOf(profile, posts, comments, now, offset)
  {
    var all := posts + comments;
    var topSubs := BuildTopSubs(posts, comments);
    var hourDist := BuildHistogram(all, HourOfDay, offset);
    var dowDist := BuildHistogram(all, DayOfWeek, offset);
    var typeMap := CountContentTypes(posts);
    var sentiment := Sentiment.CalcSentiment(posts, comments);
    var wordFreq := WordFrequency.BuildWordFrequency(posts, comments);
    var mostActiveDay := FindMostActiveDay(all, offset);
    var ratio := RatioTenths(|posts|, |comments|);
    var avgPostScore := AvgPostScore(posts);
    var signals := Persona.Signals(|posts|, |comments|, ShareNames(topSubs), ratio, avgPostScore, sentiment, hourDist);
    m := Metrics(
      topSubs, hourDist, dowDist, typeMap,
      TopByScore(posts), TopByScore(comments),
      avgPostScore, AvgCommentsTenths(posts),
      PostsPerMonthTenths(profile.createdUtc, now, |posts|),
      ratio, Controversiality(posts),
      sentiment, wordFreq, mostActiveDay, Peak(hourDist), Peak(dowDist), Awards(all),
      Persona.DetectPersona(signals),
      |posts| + |comments|);
  }
}
