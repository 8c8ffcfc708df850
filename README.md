# RedditScope analytics engine, in Dafny

RedditScope takes a Reddit user's profile record and fetches the user's posts and comments. It pages through the `submitted` and `comments` listings and falls back to the search index when the profile is hidden. From those records it computes a dashboard. This project models the deterministic part of `script.js` and proves properties of it.

The model covers these parts:

- **Fetching.** The two cursor-paginated fetch loops and the hidden-profile probe. Also the rule by which `analyzeUser` chooses between the listed posts and the search-index posts.
- **`analyzeData`:**
  - the subreddit table;
  - the hour and weekday histograms and their peaks;
  - the content-type breakdown;
  - the best post and comment;
  - the averages and posts per month;
  - the comment/post ratio and controversiality;
  - the most active day and the award total;
  - the lexicon sentiment score;
  - the forty-word frequency table;
  - the persona guard chain.
- **Personality type.** The four axis scores and the sixteen-entry type table.
- **Report card.** Subject scores, letter grades and the GPA.
- **Dig-deep browser.** Filter, sort, statistics, page slice and page buttons.
- **Helpers.** `accountAge` and `escapeHTML`.

Everything is in `script.js`. The files follow its structure:

| file | module | models |
|---|---|---|
| `items.dfy` | `Items` | post, comment and profile records; hour and weekday of a timestamp |
| `listing.dfy` | `Listing` | `fetchListing`, `fetchListingBySearch` (per-child check and as written) |
| `visibility.dfy` | `Visibility` | `checkIfHidden`, the fallback choice of `analyzeUser` |
| `ranking.dfy` | `Ranking` | counting into an object, `Object.entries`, a stable sort by count, `slice` |
| `sentiment.dfy` | `Sentiment` | `calcSentiment` |
| `wordfreq.dfy` | `WordFrequency` | `buildWordFrequency` |
| `jsobjects.dfy` | `JsObjects` | counting into `{}` with the keys `Object.prototype` defines |
| `persona.dfy` | `Persona` | `detectPersona` as an ordered guard list |
| `aggregator.dfy` | `Aggregator` | `analyzeData` |
| `orchestrator.dfy` | `Orchestrator` | `analyzeUser` |
| `axes.dfy` | `Axes` | `computePersonalityAxes`, `derivePersonalityType` |
| `reportcard.dfy` | `ReportCard` | `scoreToGrade`, the subject scores, the GPA and its description |
| `digdeep.dfy` | `DigDeep` | `applyDDFilter`, `renderDDStats`, `renderDDPage`, `renderDDPagination` |
| `format.dfy` | `Format` | `accountAge`, `escapeHTML` |
| `numeric.dfy`, `seqs.dfy`, `text.dfy`, `wrappers.dfy` | `Numeric`, `Seqs`, `Text`, `Wrappers` | rounding, sums, filters, tokenising, `toLowerCase`, `trim`, `includes`, `replace` |

## Conventions

The network is a **page source**: a function from the `after` cursor to one response. A response is one of three things:

- `Failed`: the fetch threw;
- `Unreadable`: there is no `data.children`;
- `Page(children, after)`.

The empty cursor stands for the first request and for a null `after`.

`Math.round(a / b)` is `Numeric.RoundDiv(a, b)`, which is `floor(a / b + 1/2)` on rationals.

`toFixed(1)` values are kept as integers in tenths; this covers the ratio, posts per month and average comments. The GPA's `toFixed(2)` is kept in hundredths. A threshold on such a value is an integer comparison; for example, `Number(ratio) > 25` becomes `ratioTenths > 250`.

The current time `now` (epoch seconds) and the zone offset are parameters. Hours, weekdays and calendar days are computed with a fixed offset from UTC.

The loops that fill the counting objects and histograms are methods. Each method's `ensures` ties its result to a function of its inputs, and the lemmas state the properties of those functions. JavaScript counting objects become a `map` together with its key order.

## Model

| member | source | states |
|---|---|---|
| Listing.Batch | script.js:193 | a page's items are its children that carry data, so there are never more items than children |
| Listing.CollectStep | script.js:188-199 | one iteration: a failed, unreadable or empty page ends the listing with nothing more and one request; a page without `after` adds its batch and ends; otherwise its batch comes before the rest of the chain, at one more request |
| Listing.FetchListing | script.js:184-201 | the `while (page < MAX_PAGES)` loop returns exactly the items the page chain yields and makes exactly the requests it needs |
| Listing.ContinuesForAll | script.js:188-199 | pages 0..k-1 each kept with a next cursor is the same as the recursive continuation condition |
| Listing.Batches | script.js:193-194 | the first `k` pages of the chain give exactly `k` batches |
| Listing.CollectUnfold | script.js:188-199 | while pages continue, the result is their batches concatenated, followed by what the rest of the chain yields |
| Listing.CollectUnfoldBase | script.js:187 | with no page read yet, nothing has been gathered |
| Listing.CollectUnfoldStep | script.js:193-197 | one continuing page moves its batch from the rest of the chain onto the items before it |
| Listing.ConcatBatchesStep | script.js:194 | `items = items.concat(batch)`: the batches of `k` pages are those of `k-1` pages plus page `k-1`'s batch |
| Listing.RequestsUnfold | script.js:188-199 | while pages continue, each costs exactly one request |
| Listing.StopsAtFailure | script.js:191-192 | a failed, unreadable or empty page `k` ends the listing with the items of the `k` pages before it (a partial result, not an error), after `k+1` requests |
| Listing.StopsAtLastPage | script.js:196-197 | a page `k` without `after` is the last page read: the result is the first `k+1` batches, after `k+1` requests |
| Listing.StopsAtPageLimit | script.js:185-188 | a chain that always continues is cut after exactly ten pages and ten requests |
| Listing.RequestsBound | script.js:185-188 | at most `left` requests are made, and at least one when any is allowed |
| Listing.IdsAppend | script.js:236 | the ids of a concatenation are the union of the ids of its parts |
| Listing.IdsMember | script.js:236 | an item's id is among the ids of any sequence containing it |
| Listing.DedupSubset | script.js:234-236 | deduplication keeps only items of its input whose id was not seen before |
| Listing.DedupIds | script.js:234-236 | deduplication loses no id: the ids kept are exactly the new ids of the input |
| Listing.DedupDistinct | script.js:225-244 | no id is kept twice |
| Listing.DedupAppend | script.js:234-238 | deduplicating a concatenation deduplicates the second part against the ids of the first as well, so pages can be processed one at a time |
| Listing.DedupKeepsFirst | script.js:234-236 | the first occurrence of a new id is kept, so the item kept for an id is its first occurrence, in page order |
| Listing.BatchCons | script.js:193 | the items of the children from `i` are child `i`'s data, if any, then the rest |
| Listing.DedupPage | script.js:234-236 | checking every child against all ids seen so far (those of earlier children of the same page included) keeps the deduplicated batch and adds exactly the page's ids to the seen set |
| Listing.SearchStep | script.js:234-241 | one kept search page moves its deduplicated batch from the rest of the chain onto the items before it |
| Listing.FetchListingBySearch | script.js:222-245 | the search loop with the duplicate check applied child by child returns the deduplicated page chain |
| Listing.SearchResultDistinct | script.js:225-244 | the search result never holds two items with the same id, and it keeps every id the pages list |
| Listing.Unseen | script.js:235 | the page filter keeps only children of the page whose id was not seen before the page |
| Listing.SearchAsWrittenStep | script.js:228-241 | one iteration of the loop as written: filter the page against the ids seen before it, then add the page's ids |
| Listing.AddIds | script.js:236 | the `map` callback adds exactly the batch's ids to `seenIds` |
| Listing.FetchListingBySearchAsWritten | script.js:222-245 | the loop as written returns the page-by-page filtered chain |
| Listing.SearchAsWrittenKeepsInPageDuplicate | script.js:234-236 | a page listing the same post twice: the loop as written returns it twice, the per-child check once |
| Visibility.CountOnCommunityZero | script.js:214-215 | no child is a community post exactly when every child lacks data or sits in a `user` subreddit |
| Visibility.CheckIfHiddenMeaning | script.js:206-217 | a failed probe means visible; an unreadable one means hidden; a page (empty ones included) means hidden exactly when every child lacks data or has `subreddit_type` `user` |
| Visibility.ChoosePostsProperties | script.js:136-145 | the posts are the listed ones or the search ones, never merged; the fallback flag is set exactly when the search result was taken; the search is consulted only when the profile is hidden or fewer than 5 posts were listed; it is taken only when strictly longer |
| Orchestrator.AnalysisProperties | script.js:117-163 | the analysis uses the deduplicated search posts (see the first finding) only when the fallback rule allows and they are longer, and then they hold no repeated id; otherwise it uses the listed posts; the comments are the comment listing; the metrics are those of the posts and comments used |
| Orchestrator.FetchPosts | script.js:129-145 | the probe, the listing and, only when needed, the deduplicated search give the hidden flag and the post choice of the fallback rule |
| Orchestrator.AnalyzeUser | script.js:117-163 | the steps of `analyzeUser`, in order, with the deduplicated search, give the analysis value |
| Ranking.TieFirst | script.js:257 | the first element with a given key heads the elements with that key |
| Ranking.Insert | script.js:257 | insertion adds one element |
| Ranking.InsertMultiset | script.js:257 | insertion adds exactly the inserted element |
| Ranking.InsertSorted | script.js:257 | insertion into a sorted sequence keeps it sorted |
| Ranking.InsertTie | script.js:257 | insertion puts the new element before every element with the same key |
| Ranking.SortBy | script.js:257 | `sort` with a key comparator: the result is sorted, a permutation of the input, and elements with equal keys keep their input order (stability) |
| Ranking.Distinct | script.js:253-256 | the keys of a counting object: each counted key exactly once, nothing else |
| Ranking.TallyProperties | script.js:253-256 | `Object.entries` of the counting object lists each counted key once, in first-seen order, with its number of occurrences |
| Ranking.TallyTotal | script.js:253-256 | the counts add up to the number of keys counted |
| Ranking.TallySum | script.js:253-256 | the counts of the distinct keys add up to their occurrences |
| Ranking.Bump | script.js:255 | `m[k] = (m[k] \|\| 0) + 1` counts one more `k` and records a new key at the end of the key order |
| Ranking.CountedEntries | script.js:257 | the entries of a counting object are the tally of what it counted |
| Ranking.CountKeys | script.js:253-256 | the counting loop yields the tally of its keys |
| Ranking.CountKept | script.js:377-378 | counting only the kept words is counting the filtered words |
| Ranking.Take | script.js:257 | `slice(0, n)` keeps the first `min(n, length)` elements |
| Ranking.RankProperties | script.js:257 | `sort((a, b) => b[1] - a[1])` orders entries by count, highest first, as a permutation that keeps each count's entries in order |
| Ranking.RankKeepsTieOrder | script.js:257 | entries with equal counts keep their relative order |
| Ranking.RankHeadIsFirstMax | script.js:317 | the head of the ranking is the first entry with the highest count |
| Ranking.RankedTallyDistinctKeys | script.js:257 | a ranked tally lists no key twice |
| Ranking.TopTallyProperties | script.js:257-258 | the top `n` entries: at most `n`, highest count first, each key counted with its number of occurrences |
| Ranking.TopTallyDistinct | script.js:257-258 | the top `n` list no key twice |
| Ranking.TopTallyTieOrder | script.js:257-258 | keys with equal counts appear in first-seen order |
| Aggregator.SubredditNames | script.js:254-255 | one subreddit name per item |
| Aggregator.Shares | script.js:258 | one row per entry |
| Aggregator.ShareNames | script.js:257-258 | one name per row |
| Aggregator.TopSubsShape | script.js:253-258 | at most eight rows, highest count first, no subreddit twice |
| Aggregator.TopSubsRow | script.js:253-258 | each row names a non-empty subreddit with its number of items and `pct = round(100 · count / (posts + comments))`, a value in 0..100 |
| Aggregator.BuildTopSubs | script.js:253-258 | the `subCount` loop, sort, cut and map build exactly the subreddit table |
| Aggregator.SharesCanExceedHundred | script.js:258 | eight subreddits with one item each get 13% apiece, so the shares can add up to more than 100 |
| Aggregator.BucketOf | script.js:263-270 | an hour is below 24 and a weekday below 7 |
| Aggregator.Histogram | script.js:261-271 | a histogram has 24 or 7 buckets |
| Aggregator.HistogramCounts | script.js:261-271 | each bucket counts exactly the timestamped items falling into it |
| Aggregator.HistogramTotal | script.js:261-271 | the buckets add up to the number of timestamped items |
| Aggregator.BuildHistogram | script.js:261-271 | the in-place `fill(0)` array filled by the `forEach` loop is the histogram |
| Aggregator.Peak | script.js:265-272 | `indexOf(Math.max(...))`: a bucket holding the maximum with every earlier bucket strictly smaller, so it is the first maximum |
| Aggregator.TypeCountsTotal | script.js:275-282 | every post increments exactly one count, so the five counts add up to the number of posts |
| Aggregator.TypeCountsCount | script.js:275-282 | each count is the number of posts of its kind, the kind being the first of video, gallery, text, image and link that applies |
| Aggregator.CountContentTypes | script.js:275-282 | the `forEach` loop over the if-chain builds exactly the breakdown |
| Aggregator.TopByScoreProperties | script.js:285-286 | the best item exists exactly when there are items; no item scores higher and every item before it scores lower (`reduce` keeps the first maximum) |
| Aggregator.Scores | script.js:289 | one score per post |
| Aggregator.CommentCounts | script.js:290 | one comment count per post |
| Aggregator.AvgPostScoreBetween | script.js:289 | the rounded average score lies between the lowest and the highest post score |
| Aggregator.AvgCommentsBetween | script.js:290 | the average comment count, in tenths, lies between ten times the fewest and ten times the most comments |
| Aggregator.PostsPerMonthProperties | script.js:293-294 | over an account exactly `m` thirty-day months old the rate is `round(10 · posts / m)` tenths, and more posts never give a lower rate |
| Aggregator.RatioMeaning | script.js:297 | with posts, the ratio reaches `k` tenths exactly when comments per post reach `k/10` less a twentieth; without posts it is the comment count |
| Aggregator.ControversialityProperties | script.js:300-301 | a percentage in 0..100: 0 when no post has an upvote ratio below 0.6, 100 when all have |
| Aggregator.MostActiveDayFirstMax | script.js:310-317 | there is a most active day exactly when some item has a timestamp, and it is the first-seen day with the highest count |
| Aggregator.MostActiveDayMaximal | script.js:310-317 | no day has more items than the most active one |
| Aggregator.DaysStep | script.js:311-315 | the `dayMap` loop skips items without a timestamp and counts the others by calendar day |
| Aggregator.CountDays | script.js:310-316 | the `dayMap` loop counts exactly the calendar days of the timestamped items |
| Aggregator.FindMostActiveDay | script.js:310-317 | the loop, the sort and `[0] \|\| null` give exactly the most active day |
| Aggregator.AwardsAppend | script.js:320 | the award total of two lists is the sum of their totals |
| Aggregator.AwardsSingle | script.js:320 | one item adds exactly its own `total_awards_received` |
| Aggregator.AnalyzeData | script.js:248-333 | `analyzeData`, with the word table counted as intended (see the third finding), returns the metrics value: table, histograms, peaks, breakdown, best items, averages, rates, sentiment, words, day, awards, persona and item total |
| Sentiment.HitsSnoc | script.js:352-353 | one more text adds its own lexicon hits |
| Sentiment.ScoreProperties | script.js:355-357 | the score lies in 0..100; it is 50 with no hits and with as many positive as negative hits; it is at least 50 when positive hits are at least as many and at most 50 in the opposite case; it is 100 with positive hits only and 0 with negative hits only |
| Sentiment.AddText | script.js:345-351 | `addText` adds exactly the text's positive and negative word counts |
| Sentiment.CalcSentiment | script.js:336-358 | the counting loops over titles and bodies and the final rule give exactly the sentiment of the texts |
| WordFrequency.LongWordsAreNotStopWords | script.js:362-372 | no stop word is longer than seven characters |
| WordFrequency.LongNotInA | script.js:363-365 | the first part of `STOP` has no word longer than seven characters |
| WordFrequency.LongNotInB | script.js:365-367 | the second part of `STOP` has no word longer than seven characters |
| WordFrequency.LongNotInC | script.js:367-370 | the third part of `STOP` has no word longer than seven characters |
| WordFrequency.LongNotInD | script.js:370-371 | the last part of `STOP` has no word longer than seven characters |
| WordFrequency.KeptWordsKept | script.js:377 | every word counted is longer than three characters, not a stop word and not numeric |
| WordFrequency.WordFrequencyProperties | script.js:373-382 | at most forty entries, highest count first; each word is longer than three characters, outside `STOP` and not numeric, and its count is its number of occurrences |
| WordFrequency.WordFrequencyDistinct | script.js:373-382 | no word is listed twice |
| WordFrequency.WordFrequencyTies | script.js:382 | words with equal counts appear in first-seen order |
| WordFrequency.CountTexts | script.js:374-381 | the counting over all titles and bodies, with every key counted as a number, counts the kept words |
| WordFrequency.BuildWordFrequency | script.js:361-383 | `buildWordFrequency`, with every key counted as a number, returns the ranked, cut tally of the kept words |
| JsObjects.TallyAsWrittenCounts | script.js:373-378 | counting into `{}`: for every key `Object.prototype` does not define, the slot holds the number of occurrences, or nothing when there are none |
| JsObjects.ConstructorCountedAsString | script.js:378 | one occurrence of `constructor` is counted as the string `"function Object() { [native code] }1"`, not as 1 |
| JsObjects.ConstructorIsKept | script.js:377 | `constructor` passes the word filter |
| JsObjects.ConstructorIsNotNumeric | script.js:377 | `isNaN("constructor")` holds |
| Persona.FirstMatchMeaning | script.js:394-441 | the first match of a guard list holds, and no guard before it does |
| Persona.FirstMatchUnique | script.js:394-441 | a guard that holds with none before it holding is the first match |
| Persona.Position | script.js:394-441 | every persona has its place in the guard order |
| Persona.ClassifyIsFirstMatch | script.js:386-442 | the if-chain returns a persona whose condition holds and no earlier persona's condition holds: it is the first match of the ordered guard list |
| Persona.NoPostsPersona | script.js:395-398 | without posts the persona is Silent Observer with more than ten comments and Ghost otherwise, whatever else holds |
| Persona.NoCommentsPersona | script.js:399-400 | posts without comments make a Broadcaster |
| Axes.CodeLetters | script.js:1956-1961 | the code is four letters, one from each of {C,K}, {V,I}, {P,X}, {F,B}, each chosen by its score reaching 50 |
| Axes.ScoreRanges | script.js:1938-1953 | the creator and focused scores are in 0..100; the viral score is at most 100, and non-negative for a non-negative average |
| Axes.CreatorLetter | script.js:1941-1956 | the letter C exactly when the ratio is at most 10.1 |
| Axes.ViralLetter | script.js:1944-1957 | the letter V exactly when the average post score is at least 248 |
| Axes.FocusedLetter | script.js:1950-1959 | the letter F exactly when there are at most five top subreddits |
| Axes.CreatorIntimateFallsBack | script.js:1980-2030 | every code starting with "CI" misses the table and gets the `KIPB` entry, "The Explorer", under its own code |
| Axes.NoFourLetterCIKey | script.js:1980-1992 | no four-letter key of `TYPES` starts with "CI" |
| Axes.OtherCodesFound | script.js:2030 | every other code has an entry of its own |
| Axes.MisspeltKeys | script.js:1980-1992 | the only keys not four letters long are the four "CI" keys |
| Axes.IntendedCoversEveryCode | script.js:1980-2030 | with the "CI" keys as intended, every one of the sixteen codes has an entry of its own |
| Axes.IntendedKeyRecovers | script.js:1980-1992 | the intended key of a four-letter code gives the code back, with the `V` of a "CIV" key dropped |
| Axes.IntendedKeysDistinct | script.js:1980-1992 | with the intended keys, distinct codes are looked up under distinct keys |
| ReportCard.ScoreToGradeMonotone | script.js:2104-2116 | a higher score never earns fewer grade points |
| ReportCard.ScoreToGradeEnds | script.js:2104-2116 | at most 4.0 points; 4.0 exactly from 90 on, none exactly below 60 |
| ReportCard.SubjectScoreRanges | script.js:2120-2122 | for non-negative rates the computed subject scores are in 0..100; 30 posts a month or more give full consistency, a ratio of 20 or more full engagement, and community is full exactly from ten subreddits on |
| ReportCard.Grades | script.js:2136 | one grade per subject |
| ReportCard.GpaBounds | script.js:2137 | the GPA lies between 0.00 and 4.00 |
| ReportCard.GpaUniform | script.js:2137 | the GPA is the common grade points when all subjects have the same grade |
| ReportCard.PointsAtMost | script.js:2137 | the grade points add up to at most `n` times the largest |
| ReportCard.PointsEqual | script.js:2137 | equal grade points add up to `n` times their value |
| ReportCard.ReportCardProperties | script.js:2118-2142 | the GPA is never above 4.00; six subjects at 90 or more give 4.00, an A+ overall and the Dean's List |
| DigDeep.Rows | script.js:1621-1659 | the posts' rows, then the comments' rows, each in fetch order, with the defaults for a missing title |
| DigDeep.FilteredMembers | script.js:1707-1728 | a row is listed exactly when it is a row and passes the kind filter and the search, as often as it occurs among the passing rows |
| DigDeep.FilteredOrder | script.js:1721-1728 | the list is ordered by the sort key, and rows with equal keys keep their order |
| DigDeep.SortDirections | script.js:1721-1728 | oldest first for `date-asc`; highest score first for `score-desc`; lowest first for `score-asc`; newest first for any other value |
| DigDeep.FilterKinds | script.js:1710-1718 | the "all" filter with an empty search lists every row; "posts" lists only posts and "comments" only comments |
| DigDeep.StatsPartition | script.js:1739-1740 | every result is counted as a post or as a comment |
| DigDeep.PageCountMeaning | script.js:1808 | `Math.ceil(n / 25)` is the least number of 25-row pages that hold every row |
| DigDeep.PageRowsProperties | script.js:1760-1766 | a page holds at most 25 rows, the ones from `25 · page` on; it is empty ("No results found.") exactly from the page count on |
| DigDeep.WindowProperties | script.js:1811-1814 | for an existing page the button window holds it, lies within the pages and is seven wide (or all the pages when fewer); away from both ends the current page is the fourth button |
| DigDeep.Numbers | script.js:1818-1820 | one button per page of the window, the current one active |
| DigDeep.PaginationProperties | script.js:1805-1823 | "Prev" leads to the page before and "Next" to the page after, each shown exactly when that page exists; every button leads to an existing page; the current page's button is present and is the only active one |
| DigDeep.NumberButtons | script.js:1818-1820 | the `for` loop pushes exactly the window's numbered buttons |
| DigDeep.RenderPagination | script.js:1805-1823 | `renderDDPagination` builds exactly the button list: none for a single page, else Prev, the window, Next |
| Format.NatToString | script.js:1912-1914 | decimal text is non-empty and made of digits |
| Format.NatToStringRoundTrip | script.js:1912-1914 | the decimal text reads back as the number and has no leading zero |
| Format.IntToStringSign | script.js:1912-1914 | negative numbers are written as a minus sign and their magnitude |
| Format.AccountAgeParts | script.js:1908-1911 | for a creation time in the past the age splits into `y ≥ 0` years and `m` months, 0 ≤ m ≤ 12, with less than a month left over |
| Format.AccountAgeUnderAYear | script.js:1912 | under a year the text is the number of whole months, up to "12 months" for 360 to 364 days |
| Format.TwelveMonths | script.js:1912 | twelve months read "12 months" |
| Format.AccountAgeWholeYears | script.js:1913 | whole years with less than a month over read "y year" or "y years" |
| Format.AccountAgeYearsAndMonths | script.js:1914 | years and months read "y year(s), m month(s)" |
| Format.QuantityPlural | script.js:1912-1914 | the unit takes an `s` exactly when the count is not 1 |
| Format.EscapedAppend | script.js:1926 | escaping distributes over concatenation |
| Format.EscapedChar | script.js:1926 | the four replacements turn each character into its own entity |
| Format.EscapedAmp | script.js:1926 | `&` becomes `&amp;` and the later replacements leave the entity alone |
| Format.LaterStepsAbsent | script.js:1926 | text without `<`, `>` and `"` passes the last three replacements unchanged |
| Format.EscapedLt | script.js:1926 | `<` becomes `&lt;` |
| Format.EscapedGt | script.js:1926 | `>` becomes `&gt;` |
| Format.EscapedQuot | script.js:1926 | `"` becomes `&quot;` |
| Format.EscapedIsEscapeEach | script.js:1926 | the chain of four global replacements equals replacing each character by its entity on its own |
| Format.UnescapeEscapeChar | script.js:1926 | each escaped character reads back as itself |
| Format.UnescapeOther | script.js:1926 | any character other than `&` reads back as itself |
| Format.UnescapeAmp | script.js:1926 | `&amp;` reads back as `&` |
| Format.UnescapeAngle | script.js:1926 | `&lt;` and `&gt;` read back as `<` and `>` |
| Format.UnescapeQuot | script.js:1926 | `&quot;` reads back as `"` |
| Format.EscapeHtmlRoundTrip | script.js:1925-1927 | escaping loses nothing: the escaped text reads back as the original |
| Format.EscapeEachRoundTrip | script.js:1926 | per-character escaping reads back as the original |
| Format.EscapeHtmlSafe | script.js:1925-1927 | the output holds no `<`, `>` or `"`, and `null`/`undefined` escape to the empty string |
| Format.EscapeHtmlPlain | script.js:1926 | text without `&`, `<`, `>` and `"` is returned unchanged |
| Items.HourOf | script.js:263 | an hour of the day is below 24 |
| Items.WeekdayOf | script.js:270 | a weekday is below 7 |
| Items.WeekdayNext | script.js:270 | the day after has the next weekday |
| Text.Lower | script.js:347 | lower-cased text holds no ASCII capital letter |
| Text.Split | script.js:347 | `split` into words: every word is non-empty and made only of word characters |
| Text.SplitFlatten | script.js:347 | the words, joined, are exactly the word characters of the text, in order: `split` drops only separators |
| Text.SplitAtSeparator | script.js:347 | a separator character cuts the text: the words are those before it followed by those after it |
| Text.SplitRun | script.js:347 | a non-empty run of word characters is one word; with the two lemmas above, the words are the maximal runs in order |
| Text.TrimStart | script.js:1708 | `trim`, leading side: it removes exactly a run of leading JavaScript whitespace, after which no whitespace is left at the front |
| Text.TrimEnd | script.js:1708 | `trim`, trailing side: it removes exactly a run of trailing JavaScript whitespace, after which no whitespace is left at the end |
| Text.Contains | script.js:1715 | `includes` holds exactly when the needle occurs at some index |
| Text.ReplaceAll | script.js:1926 | a global replacement by text without the character removes every occurrence |

## Left out

- The network (`fetchJSON`, the CORS proxies, time-outs, `sleep`) is left out. Every endpoint's responses are a page source parameter.
- `fetchProfile` and its error cases are left out; the profile record is an input.
- `analyzeUser`'s loading labels, step indicators, rendering and error display are left out: they are UI.
- All DOM, canvas and animation code is left out, as are `generatePDF`, the narrative text builders, the roast and its `heat` clamp, and `formatNumber`. These are presentation.
- The logarithmic report-card scores for content and karma (script.js:2119, 2125) are left out: they use floating-point `Math.log10`. They are inputs to `ReportCard.ReportCardOf`.
- `calcPostsPerMonth` (script.js:445-449) is not modelled: nothing calls it. `analyzeData` computes the rate itself.
- `toFixed` and `Math.round` on IEEE doubles are modelled as exact rational rounding. The two can differ when a double lands just beside a half.
- `Date.now() / 1000` is an integer `now`. The fractional part of the current second is dropped in posts per month and in `accountAge`.
- Format.AccountAge: for a creation time not after `now`, dropping the fraction changes nothing, because the whole years and months of `s` and of `floor(s)` coincide. For a creation time after `now`, they coincide except when the creation time is a whole number of 365-day years ahead. There the source's truncating `%` leaves a remainder just above minus one year, so it shows -13 months. The model's remainder is 0, so it shows no months. For example, one year ahead reads "-1 years, -13 months" in the source and "-1 years" here.
- Local time is a fixed offset from UTC; daylight-saving changes are not modelled.
- `toDateString` keys are calendar day numbers for that offset. Distinct days still give distinct keys, so the counts are the same.
- Aggregator.TopSubsOf: keys of `subCount` that look like array indices (a subreddit named `1234`) are listed first by `Object.entries`, ahead of insertion order. The model uses insertion order for every key.
- Aggregator.TopSubsOf: a subreddit named after an `Object.prototype` member, such as `constructor`, counts with the intended meaning here. `JsObjects` shows what the object does with such a key for the word table.
- Text.Lower: it maps ASCII capitals, KELVIN SIGN and LATIN CAPITAL LETTER I WITH DOT ABOVE, and leaves every other character unchanged. Other cased non-ASCII characters are not lowered. This affects only the dig-deep search: the tokenisers of the sentiment and word tables treat every non-ASCII character as a separator either way.
- Dig-deep:
  - The `link` and `upvoteRatio` fields of the rows are not modelled, nor are the date and body-preview strings.
  - The rebuild of the rows only for a new user is not modelled.
  - The 220 ms debounce of the search box is not modelled.
  - Reading the current page back from a button's `data-pg` is not modelled.
  - The `K` formatting of the total score is not modelled.
- Format.EscapeHtml: the input is a string or nothing (`null`/`undefined`). `String(...)` of numbers, objects and other falsy values is not modelled.
- Orchestrator.AnalyzeUser: it fetches the search posts with the per-child duplicate check (`Listing.FetchListingBySearch`), not with the loop as written. A search page listing a post twice therefore counts it once here. With one listed post `[y]` and a search page `[x, x]`, `analyzeUser` adopts `[x, x]` and sets `_usedSearchFallback`, while the model keeps `[y]`. The loop as written is `Listing.FetchListingBySearchAsWritten`.
- Orchestrator.AnalysisProperties and Orchestrator.FetchPosts: for the same reason, they speak of the deduplicated search, and the no-repeated-id promise holds only for it.
- WordFrequency.CountTexts: it counts into a map from words to numbers, so the word `constructor` is counted as 1, where the object at script.js:373-378 holds a string. `JsObjects` models the object as written.
- WordFrequency.BuildWordFrequency: for the same reason, a text holding `constructor` gives the entry (`constructor`, 1) rather than the string count.
- Aggregator.AnalyzeData: its word table is `WordFrequency.BuildWordFrequency`, so it has the same difference for `constructor`.
- Items: `upvote_ratio` is kept as a whole number of hundredths, with 0 for a missing ratio. Reddit publishes the ratio with two decimals, so the hundredths are exact. The filter at script.js:299 skips a missing or zero ratio, and so does the model.
- Persona.NoPostsPersona and Persona.NoCommentsPersona: these follow directly from the first guards of the chain.

## Findings

| source | as written | input that shows it | evidently intended | confidence | as-written member | corrected member |
|---|---|---|---|---|---|---|
| script.js:234-236 | the `filter` runs over the whole page before the `map` adds any id to `seenIds`, so a post listed twice on one page is returned twice | one search page `[x, x]` with no `after` | no two items with the same id, as `seenIds` intends | not executed | Listing.FetchListingBySearchAsWritten, Listing.SearchAsWrittenKeepsInPageDuplicate | Listing.FetchListingBySearch, Listing.SearchResultDistinct |
| script.js:1980-1992, 2030 | the four "CI" types are keyed `CIVPF`, `CIVPB`, `CIVXF` and `CIVXB`, five letters, so no four-letter code reaches them and every "CI" code gets the `KIPB` entry | any scores with creator ≥ 50 and viral < 50, such as creator 100 and viral 0 | each "CI" code reaches the entry written for it (`CIPF` is "The Craftsman") | not executed | Axes.DerivePersonalityType, Axes.CreatorIntimateFallsBack | Axes.DerivePersonalityTypeIntended, Axes.IntendedCoversEveryCode |
| script.js:373-378 | `freq` is a plain object, so the word `constructor` (kept: long, not a stop word, not numeric) reads the inherited `Object` function and is counted as the string `"function Object() { [native code] }1"` | a title "constructor" | every kept word counted as a number of occurrences | not executed | JsObjects.TallyAsWritten, JsObjects.ConstructorCountedAsString | WordFrequency.BuildWordFrequency, WordFrequency.WordFrequencyProperties |

The code rounds each share of the subreddit table on its own, so the shares can add up to more than 100, as `Aggregator.SharesCanExceedHundred` shows.

The "CI" keys are also reproduced as written: `Axes.DerivePersonalityType` is the type the application shows. No other part of the model reads the personality type.
