// Hidden-profile detection (`checkIfHidden`) and the choice between the
// listed posts and the search-index posts made by `analyzeUser`.

module Visibility {
  import opened Items
  import opened Listing

  /** A child that is a post in a community rather than in the user's own
      profile subreddit. */
  predicate OnCommunity(c: Child)
  {
    c.data.Some? && c.data.value.subredditType != "user"
  }

  function CountOnCommunity(cs: seq<Child>): nat
  {
    if cs == [] then 0 else (if OnCommunity(cs[0]) then 1 else 0) + CountOnCommunity(cs[1..])
  }

  /** `checkIfHidden` on the response to the ten-post probe of `submitted`:
      a failed fetch counts as visible, an unreadable body or an empty page as
      hidden, and otherwise the profile is hidden when no child is a post in
      a community. */
  function CheckIfHidden(probe: Response): bool
  {
    match probe
    case Failed => false
    case Unreadable => true
    case Page(cs, _) => cs == [] || CountOnCommunity(cs) == 0
  }

  lemma {:induction false} CountOnCommunityZero(cs: seq<Child>)
    ensures CountOnCommunity(cs) == 0 <==> forall i | 0 <= i < |cs| :: !OnCommunity(cs[i])
  {
    if cs != [] {
      CountOnCommunityZero(cs[1..]);
      assert forall i | 1 <= i < |cs| :: cs[1..][i - 1] == cs[i];
    }
  }

  /** A profile is reported hidden exactly when the probe could not be read,
      or was read and every post on it lacks data or sits in a `user`
      subreddit. */
  lemma CheckIfHiddenMeaning(probe: Response)
    ensures CheckIfHidden(probe) <==>
      probe.Unreadable?
      || (probe.Page? && forall i | 0 <= i < |probe.children| ::
            probe.children[i].data.None? || probe.children[i].data.value.subredditType == "user")
  {
    if probe.Page? {
      CountOnCommunityZero(probe.children);
    }
  }

  /** The search index is consulted when the profile is hidden or fewer than
      five posts were listed. */
  predicate NeedsSearch(hidden: bool, listed: seq<Item>)
  {
    hidden || |listed| < 5
  }

  datatype PostChoice = PostChoice(posts: seq<Item>, usedSearchFallback: bool)

  /** The search result replaces the listed posts only when it was consulted
      and is strictly longer. */
  function ChoosePosts(hidden: bool, listed: seq<Item>, searched: seq<Item>): PostChoice
  {
    if NeedsSearch(hidden, listed) && |searched| > |listed| then PostChoice(searched, true)
    else PostChoice(listed, false)
  }

  /** The two results are never merged: the chosen posts are one of them, the
      fallback is flagged exactly when the search result was taken, the choice
      never loses posts, and a visible profile with five or more listed posts
      keeps its listing. */
  lemma ChoosePostsProperties(hidden: bool, listed: seq<Item>, searched: seq<Item>)
    ensures var c := ChoosePosts(hidden, listed, searched);
      && (c.posts == listed || c.posts == searched)
      && (c.usedSearchFallback <==> c.posts != listed)
      && |c.posts| >= |listed|
      && (!hidden && |listed| >= 5 ==> c == PostChoice(listed, false))
      && (c.usedSearchFallback ==> |c.posts| > |listed|)
  {
  }
}
