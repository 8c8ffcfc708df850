// The records the listing API returns, as the engine reads them, and the
// clock arithmetic it applies to their timestamps.

module Items {

  /** A post or a comment. A post carries `title`, `selftext`, the media flags,
      `url`, `numComments` and `upvoteRatio`; a comment carries `body` and
      `linkTitle`. A field the record lacks holds its falsy default
      (`""`, `0`, `false`), which is how every read in the engine treats it. */
  datatype Item = Item(
    id: string,
    subreddit: string,
    subredditType: string,
    createdUtc: int,
    score: int,
    title: string,
    body: string,
    selftext: string,
    linkTitle: string,
    isVideo: bool,
    isGallery: bool,
    isSelf: bool,
    url: string,
    numComments: nat,
    upvoteRatio: nat,   // hundredths; 0 when absent
    totalAwards: nat)

  /** `if (item.created_utc)`: items without a timestamp (0) are skipped by
      every time-based aggregate. */
  predicate HasTimestamp(it: Item) { it.createdUtc != 0 }

  const SecondsPerHour := 3600
  const SecondsPerDay := 86400
  /** The thirty-day month and 365-day year of the engine's date arithmetic. */
  const SecondsPerMonth := 30 * SecondsPerDay
  const SecondsPerYear := 365 * SecondsPerDay

  /** Local calendar day number of an epoch-seconds timestamp, for a fixed
      offset from UTC in seconds. */
  function DayNumber(t: int, offset: int): int
  {
    (t + offset) / SecondsPerDay
  }

  /** `new Date(t * 1000).getHours()` in a zone `offset` seconds from UTC. */
  function HourOf(t: int, offset: int): (h: nat)
    ensures h < 24
  {
    ((t + offset) / SecondsPerHour) % 24
  }

  /** `new Date(t * 1000).getDay()`: 0 is Sunday; 1 January 1970 was a Thursday. */
  function WeekdayOf(t: int, offset: int): (d: nat)
    ensures d < 7
  {
    (DayNumber(t, offset) + 4) % 7
  }

  /** Consecutive days have consecutive weekdays. */
  lemma WeekdayNext(t: int, offset: int)
    ensures WeekdayOf(t + SecondsPerDay, offset) == (WeekdayOf(t, offset) + 1) % 7
  {
    assert DayNumber(t + SecondsPerDay, offset) == DayNumber(t, offset) + 1;
  }

  /** The user record of the `about` endpoint, with the two flags the
      orchestrator adds. */
  datatype Profile = Profile(
    name: string,
    createdUtc: int,
    linkKarma: int,
    commentKarma: int,
    isSuspended: bool,
    isHidden: bool,
    usedSearchFallback: bool)
}
