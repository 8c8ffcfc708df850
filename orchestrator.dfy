// `analyzeUser`: probe the profile's visibility, fetch the posts (falling back
// to the search index), fetch the comments, and aggregate. The profile record
// and the responses of every endpoint are parameters.

module Orchestrator {
  import opened Items
  import opened Listing
  import opened Visibility
  import opened Aggregator

  /** What `analyzeUser` hands to the renderer: the profile with its
      `_isHidden` and `_usedSearchFallback` flags, the posts and comments
      used, and the metrics computed from them. */
  datatype Analysis = Analysis(profile: Profile, hidden: bool, usedSearchFallback: bool,
                               posts: seq<Item>, comments: seq<Item>, metrics: Metrics)

  /** The search-index posts, as the fallback reads them. */
  function Searched(search: Source): seq<Item>
  {
    DedupFrom(Collect(search, "", MaxPages), {})
  }

  /** `analyzeUser(username)` as a value, for the visibility probe `probe`
      and the page sources of the `submitted`, search and `comments`
      endpoints. */
  function AnalysisOf(profile: Profile, probe: Response, submitted: Source, search: Source,
                      commentsSource: Source, now: int, offset: int): Analysis
  {
    var hidden := CheckIfHidden(probe);
    var listed := Collect(submitted, "", MaxPages);
    var choice := ChoosePosts(hidden, listed, Searched(search));
    var comments := Collect(commentsSource, "", MaxPages);
    Analysis(profile, hidden, choice.usedSearchFallback, choice.posts, comments,
             MetricsOf(profile, choice.posts, comments, now, offset))
  }

  /** The posts analysed are the listed posts, or, when the profile is hidden
      or fewer than five were listed, the search-index posts if there are
      more of those (then with no repeated id); the comments are the
      comment listing; the metrics are those of the posts and comments
      shown. */
  lemma AnalysisProperties(profile: Profile, probe: Response, submitted: Source, search: Source,
                           commentsSource: Source, now: int, offset: int)
    ensures var a := AnalysisOf(profile, probe, submitted, search, commentsSource, now, offset);
      var listed := Collect(submitted, "", MaxPages);
      && (a.usedSearchFallback ==>
            NeedsSearch(a.hidden, listed) && a.posts == Searched(search) && |a.posts| > |listed|
            && DistinctIds(a.posts))
      && (!a.usedSearchFallback ==> a.posts == listed)
      && (!a.hidden && |listed| >= 5 ==> !a.usedSearchFallback)
      && a.comments == Collect(commentsSource, "", MaxPages)
      && a.metrics == MetricsOf(profile, a.posts, a.comments, now, offset)
  {
    var listed := Collect(submitted, "", MaxPages);
    ChoosePostsProperties(CheckIfHidden(probe), listed, Searched(search));
    SearchResultDistinct(search);
  }

  /** The posts step of `analyzeUser`: the probe, the listing, and the search
      index only when the fallback may be needed. */
  method FetchPosts(probe: Response, submitted: Source, search: Source) returns (hidden: bool, choice: PostChoice)
    ensures hidden == CheckIfHidden(probe)
    ensures choice == ChoosePosts(hidden, Collect(submitted, "", MaxPages), Searched(search))
  {
    hidden := CheckIfHidden(probe);
    var posts, _ := FetchListing(submitted);
    choice := PostChoice(posts, false);
    if NeedsSearch(hidden, posts) {
      var searchPosts := FetchListingBySearch(search);
      if |searchPosts| > |posts| {
        choice := PostChoice(searchPosts, true);
      }
    }
  }

  /** The steps of `analyzeUser` in order. */
  method AnalyzeUser(profile: Profile, probe: Response, submitted: Source, search: Source,
                     commentsSource: Source, now: int, offset: int) returns (a: Analysis)
    ensures a == AnalysisOf(profile, probe, submitted, search, commentsSource, now, offset)
  {
    var hidden, choice := FetchPosts(probe, submitted, search);
    var comments, _ := FetchListing(commentsSource);
    var metrics := AnalyzeData(profile, choice.posts, comments, now, offset);
    a := Analysis(profile, hidden, choice.usedSearchFallback, choice.posts, comments, metrics);
  }
}
