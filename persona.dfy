// Persona detection (`detectPersona`): an ordered list of guards over the
// aggregate numbers; the first guard that holds names the persona.

module Persona {
  import opened Seqs

  /** The arguments `detectPersona` reads: the number of posts and comments,
      the names of the top subreddits, the comment/post ratio in tenths (the
      value of `Number(ratio)` times ten), the rounded average post score, the
      sentiment score and the hour-of-day histogram. */
  datatype Signals = Signals(
    posts: nat,
    comments: nat,
    topSubs: seq<string>,
    ratioTenths: int,
    avgScore: int,
    sentiment: int,
    hours: seq<nat>)

  datatype Persona =
    | SilentObserver | Ghost | Broadcaster
    | RedditLegend | ViralCreator | TrendingMachine
    | CommentDynamo | Conversationalist | PureCreator
    | PositivityBeacon | PositiveForce | Edgelord | Contrarian
    | MidnightDebater | NightOwl | EarlyBird
    | NicheSpecialist | DualCitizen
    | PowerUser | Hyperactive
    | CommunityHopper
    | Explorer

  /** The `{ icon, label, desc }` object; `label` is a keyword here, so it is `name`. */
  datatype Card = Card(icon: string, name: string, desc: string)

  /** Activity in hours 22, 23 and 0 to 4: `slice(22)` joined with `slice(0, 5)`. */
  function NightActivity(hours: seq<nat>): int
  {
    Sum(Slice(hours, 22, |hours|)) + Sum(Slice(hours, 0, 5))
  }

  /** Activity in hours 6 to 9: `slice(6, 10)`. */
  function MorningActivity(hours: seq<nat>): int
  {
    Sum(Slice(hours, 6, 10))
  }

  /** `hourDist.reduce((a, b) => a + b, 0) || 1` */
  function TotalActivity(hours: seq<nat>): int
  {
    if Sum(hours) == 0 then 1 else Sum(hours)
  }

  /** `nightPosts / totalAct > 0.3` */
  predicate IsNightOwl(hours: seq<nat>)
  {
    10 * NightActivity(hours) > 3 * TotalActivity(hours)
  }

  /** `morningPosts / totalAct > 0.35` */
  predicate IsEarlyBird(hours: seq<nat>)
  {
    20 * MorningActivity(hours) > 7 * TotalActivity(hours)
  }

  /** `comments.length + posts.length` */
  function Activity(s: Signals): nat { s.comments + s.posts }

  /** The guards of `detectPersona`, tried from top to bottom. */
  function Classify(s: Signals): Persona
  {
    if s.posts == 0 && s.comments > 10 then SilentObserver
    else if s.posts == 0 && s.comments <= 10 then Ghost
    else if s.comments == 0 && s.posts > 0 then Broadcaster
    else if s.avgScore > 5000 then RedditLegend
    else if s.avgScore > 1000 then ViralCreator
    else if s.avgScore > 500 then TrendingMachine
    else if s.ratioTenths > 250 then CommentDynamo
    else if s.ratioTenths > 100 then Conversationalist
    else if s.ratioTenths < 5 && s.posts > 10 then PureCreator
    else if s.sentiment > 80 then PositivityBeacon
    else if s.sentiment > 70 then PositiveForce
    else if s.sentiment < 25 then Edgelord
    else if s.sentiment < 35 then Contrarian
    else if IsNightOwl(s.hours) && s.ratioTenths > 50 then MidnightDebater
    else if IsNightOwl(s.hours) then NightOwl
    else if IsEarlyBird(s.hours) then EarlyBird
    else if |s.topSubs| == 1 then NicheSpecialist
    else if |s.topSubs| == 2 then DualCitizen
    else if Activity(s) > 300 && s.avgScore > 200 then PowerUser
    else if Activity(s) > 200 then Hyperactive
    else if |s.topSubs| >= 7 then CommunityHopper
    else Explorer
  }

  /** The object each guard returns. */
  function CardOf(p: Persona, s: Signals): Card
  {
    match p
    case SilentObserver => Card("\U{1F440}", "Silent Observer", "Lurks and comments, never starts the conversation")
    case Ghost => Card("\U{1F575}\U{FE0F}", "Ghost", "Barely leaves a trace on Reddit")
    case Broadcaster => Card("\U{1F4E2}", "Broadcaster", "Posts content but rarely engages in replies")
    case RedditLegend => Card("\U{1F31F}", "Reddit Legend", "Posts consistently dominate the frontpage")
    case ViralCreator => Card("\U{1F3C6}", "Viral Creator", "Content regularly goes viral across Reddit")
    case TrendingMachine => Card("\U{1F525}", "Trending Machine", "Consistently reaches hot with quality content")
    case CommentDynamo => Card("\U{1F4AC}", "Comment Dynamo", "Lives in the comments, almost never posts")
    case Conversationalist => Card("\U{1F5E3}\U{FE0F}", "Conversationalist", "Loves discussions far more than posting")
    case PureCreator => Card("\U{1F4F8}", "Pure Creator", "Posts prolifically and rarely replies")
    case PositivityBeacon => Card("\U{2600}\U{FE0F}", "Positivity Beacon", "Relentlessly upbeat, a ray of sunshine on Reddit")
    case PositiveForce => Card("\U{1F60A}", "Positive Force", "Spreads warmth and positivity across communities")
    case Edgelord => Card("\U{2694}\U{FE0F}", "Edgelord", "Deeply contrarian, thrives in debate and conflict")
    case Contrarian => Card("\U{1F329}\U{FE0F}", "Contrarian", "Challenges prevailing views and loves a good argument")
    case MidnightDebater => Card("\U{1F989}", "Midnight Debater", "Comes alive in comment sections after dark")
    case NightOwl => Card("\U{1F989}", "Night Owl", "Most active during the late-night hours")
    case EarlyBird => Card("\U{1F305}", "Early Bird", "Greets the Reddit day before most others wake up")
    case NicheSpecialist => Card("\U{1F3AF}", "Niche Specialist", "Laser-focused on r/" + SubName(s.topSubs, 0))
    case DualCitizen => Card("\U{1F3B2}", "Dual Citizen",
      "Splits time between r/" + SubName(s.topSubs, 0) + " and r/" + SubName(s.topSubs, 1))
    case PowerUser => Card("\U{2B50}", "Power User", "Prolific, high-quality contributor")
    case Hyperactive => Card("\U{26A1}", "Hyperactive", "Posts and comments at a relentless pace")
    case CommunityHopper => Card("\U{1F310}", "Community Hopper", "Deeply involved across a wide range of subreddits")
    case Explorer => Card("\U{1F9ED}", "Explorer", "Curious generalist ranging across many communities")
  }

  /** `${topSubs[i]?.name}`: a missing entry prints as "undefined". */
  function SubName(subs: seq<string>, i: nat): string
  {
    if i < |subs| then subs[i] else "undefined"
  }

  /** `detectPersona(posts, comments, topSubs, ratio, avgScore, sentiment, hourDist)` */
  function DetectPersona(s: Signals): Card
  {
    CardOf(Classify(s), s)
  }

  // ------------------------------------------------------------ reference form

  /** Each persona's own condition, without the guards above it. */
  predicate Applies(p: Persona, s: Signals)
  {
    match p
    case SilentObserver => s.posts == 0 && s.comments > 10
    case Ghost => s.posts == 0 && s.comments <= 10
    case Broadcaster => s.comments == 0 && s.posts > 0
    case RedditLegend => s.avgScore > 5000
    case ViralCreator => s.avgScore > 1000
    case TrendingMachine => s.avgScore > 500
    case CommentDynamo => s.ratioTenths > 250
    case Conversationalist => s.ratioTenths > 100
    case PureCreator => s.ratioTenths < 5 && s.posts > 10
    case PositivityBeacon => s.sentiment > 80
    case PositiveForce => s.sentiment > 70
    case Edgelord => s.sentiment < 25
    case Contrarian => s.sentiment < 35
    case MidnightDebater => IsNightOwl(s.hours) && s.ratioTenths > 50
    case NightOwl => IsNightOwl(s.hours)
    case EarlyBird => IsEarlyBird(s.hours)
    case NicheSpecialist => |s.topSubs| == 1
    case DualCitizen => |s.topSubs| == 2
    case PowerUser => Activity(s) > 300 && s.avgScore > 200
    case Hyperactive => Activity(s) > 200
    case CommunityHopper => |s.topSubs| >= 7
    case Explorer => true
  }

  /** The guards in the order they are tried. */
  const Order: seq<Persona> := [
    SilentObserver, Ghost, Broadcaster,
    RedditLegend, ViralCreator, TrendingMachine,
    CommentDynamo, Conversationalist, PureCreator,
    PositivityBeacon, PositiveForce, Edgelord, Contrarian,
    MidnightDebater, NightOwl, EarlyBird,
    NicheSpecialist, DualCitizen,
    PowerUser, Hyperactive,
    CommunityHopper,
    Explorer]

  /** The first persona of `order` whose condition holds, or the default. */
  function FirstMatch(order: seq<Persona>, s: Signals): Persona
  {
    if order == [] then Explorer
    else if Applies(order[0], s) then order[0]
    else FirstMatch(order[1..], s)
  }

  /** A first match holds, and nothing listed before it does. */
  lemma {:induction false} FirstMatchMeaning(order: seq<Persona>, s: Signals)
    requires Explorer in order
    ensures FirstMatch(order, s) in order && Applies(FirstMatch(order, s), s)
    ensures exists k | 0 <= k < |order| :: order[k] == FirstMatch(order, s) && forall j | 0 <= j < k :: !Applies(order[j], s)
  {
    if Applies(order[0], s) {
      assert order[0] == FirstMatch(order, s);
    } else {
      assert Explorer in order[1..] by {
        assert order[0] != Explorer;
        assert order == [order[0]] + order[1..];
      }
      FirstMatchMeaning(order[1..], s);
      var k :| 0 <= k < |order[1..]| && order[1..][k] == FirstMatch(order, s)
        && forall j | 0 <= j < k :: !Applies(order[1..][j], s);
      assert order[k + 1] == FirstMatch(order, s);
      forall j | 0 <= j < k + 1 ensures !Applies(order[j], s) {
        if j > 0 { assert order[j] == order[1..][j - 1]; }
      }
    }
  }

  /** A persona that holds with nothing before it holding is the first match. */
  lemma {:induction false} FirstMatchUnique(order: seq<Persona>, s: Signals, k: nat)
    requires k < |order| && Applies(order[k], s)
    requires forall j | 0 <= j < k :: !Applies(order[j], s)
    ensures FirstMatch(order, s) == order[k]
  {
    if k > 0 {
      assert !Applies(order[0], s);
      FirstMatchUnique(order[1..], s, k - 1);
    }
  }

  /** The position of each persona in `Order`. */
  function Position(p: Persona): (k: nat)
    ensures k < |Order| && Order[k] == p
  {
    match p
    case SilentObserver => 0 case Ghost => 1 case Broadcaster => 2
    case RedditLegend => 3 case ViralCreator => 4 case TrendingMachine => 5
    case CommentDynamo => 6 case Conversationalist => 7 case PureCreator => 8
    case PositivityBeacon => 9 case PositiveForce => 10 case Edgelord => 11 case Contrarian => 12
    case MidnightDebater => 13 case NightOwl => 14 case EarlyBird => 15
    case NicheSpecialist => 16 case DualCitizen => 17
    case PowerUser => 18 case Hyperactive => 19
    case CommunityHopper => 20
    case Explorer => 21
  }

  /** The if-chain is first-match-wins over the ordered guard list: the persona
      it returns holds, and no persona listed before it does. */
  lemma ClassifyIsFirstMatch(s: Signals)
    ensures Applies(Classify(s), s)
    ensures forall j | 0 <= j < Position(Classify(s)) :: !Applies(Order[j], s)
    ensures Classify(s) == FirstMatch(Order, s)
  {
    var k := Position(Classify(s));
    forall j | 0 <= j < k ensures !Applies(Order[j], s) {
    }
    FirstMatchUnique(Order, s, k);
  }

  /** Without posts the persona is Silent Observer or Ghost, whatever the
      scores, the sentiment or the hours say. */
  lemma NoPostsPersona(s: Signals)
    requires s.posts == 0
    ensures DetectPersona(s).name == (if s.comments > 10 then "Silent Observer" else "Ghost")
  {
  }

  /** Posts without comments make a Broadcaster. */
  lemma NoCommentsPersona(s: Signals)
    requires s.posts > 0 && s.comments == 0
    ensures DetectPersona(s).name == "Broadcaster"
  {
  }
}
