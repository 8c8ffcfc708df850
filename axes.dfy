// The personality type (`computePersonalityAxes`, `derivePersonalityType`):
// four scores from the aggregate numbers, a four-letter code from the scores,
// and a lookup of the code in a table of sixteen types.

module Axes {
  import opened Numeric

  /** `{ creatorScore, viralScore, positiveScore, focusedScore }` */
  datatype Scores = Scores(creator: int, viral: int, positive: int, focused: int)

  /** Creator against commenter: `Math.round(clamp(100 - (ratio / 20) * 100))`
      with the ratio in tenths, so `100 - ratio * 5` is `(200 - ratioTenths) / 2`.
      Rounding and clamping to the integer bounds commute. */
  function CreatorScore(ratioTenths: int): int
  {
    Clamp(RoundDiv(200 - ratioTenths, 2), 0, 100)
  }

  /** Viral against intimate: `Math.round(Math.min(100, avgPostScore / 500 * 100))`.
      Only the upper end is clamped. */
  function ViralScore(avgPostScore: int): int
  {
    if avgPostScore >= 500 then 100 else RoundDiv(avgPostScore, 5)
  }

  /** Focused against broad: `Math.round(clamp(100 - topSubs.length / 10 * 100))`. */
  function FocusedScore(subreddits: nat): int
  {
    Clamp(100 - 10 * subreddits, 0, 100)
  }

  /** `computePersonalityAxes` on the fields of the analysis it reads. */
  function ComputeAxes(ratioTenths: int, avgPostScore: int, sentiment: int, subreddits: nat): Scores
  {
    Scores(CreatorScore(ratioTenths), ViralScore(avgPostScore), sentiment, FocusedScore(subreddits))
  }

  /** The four letters, each chosen by its score reaching 50. */
  function Code(a: Scores): string
  {
    [if a.creator >= 50 then 'C' else 'K',
     if a.viral >= 50 then 'V' else 'I',
     if a.positive >= 50 then 'P' else 'X',
     if a.focused >= 50 then 'F' else 'B']
  }

  /** One entry of `TYPES`. */
  datatype TypeInfo = TypeInfo(
    name: string,
    tagline: string,
    strengths: seq<string>,
    weaknesses: seq<string>,
    similar: seq<string>)

  /** The result `{ code, ...entry }`. */
  datatype PersonalityType = PersonalityType(code: string, info: TypeInfo)

  /** The sixteen types of the table. */
  datatype TypeName =
    | Vanguard | SocialArchitect | Provocateur | Firestarter | Craftsman | Wanderer | Specialist | Drifter
    | Ambassador | Butterfly | Gatekeeper | Contrarian | Sage | Explorer | Purist | Phantom

  /** `TYPES`, with its keys as written: the four "CI" entries carry five-letter
      keys (`CIVPF`, `CIVPB`, `CIVXF`, `CIVXB`). */
  const Types: map<string, TypeName> := map[
    "CVPF" := Vanguard,
    "CVPB" := SocialArchitect,
    "CVXF" := Provocateur,
    "CVXB" := Firestarter,
    "CIVPF" := Craftsman,
    "CIVPB" := Wanderer,
    "CIVXF" := Specialist,
    "CIVXB" := Drifter,
    "KVPF" := Ambassador,
    "KVPB" := Butterfly,
    "KVXF" := Gatekeeper,
    "KVXB" := Contrarian,
    "KIPF" := Sage,
    "KIPB" := Explorer,
    "KIXF" := Purist,
    "KIXB" := Phantom]

  /** The fields of each entry of `TYPES`. */
  function Info(t: TypeName): TypeInfo
  {
    match t
    case Vanguard => TypeInfo("The Vanguard",
      "A trailblazing creator who dominates their niche with viral positivity.",
      ["Consistently high upvote counts", "Focused expertise builds real authority", "Positivity attracts loyal followers"],
      ["May miss trends outside their comfort zone", "Can come across as a sycophant", "Niche focus limits broader influence"],
      ["GallowBoob", "MrPeanutbutter"])
    case SocialArchitect => TypeInfo("The Social Architect",
      "A popular creator spreading good vibes across many communities.",
      ["Wide reach across Reddit", "High engagement and likability", "Sets the tone in multiple subs"],
      ["Spread thin \U{2014} depth suffers for breadth", "Risk of becoming a content machine", "May lack a dedicated audience"],
      ["spez", "a viral meme creator"])
    case Provocateur => TypeInfo("The Provocateur",
      "A niche creator who thrives on controversy and heated takes.",
      ["Commands attention in their domain", "Fearless opinions generate discussion", "Creates memorable content"],
      ["Alienates potential allies", "Reputation for negativity lingers", "High risk of ban in sensitive subs"],
      ["A hot-take specialist", "debate sub regular"])
    case Firestarter => TypeInfo("The Firestarter",
      "Drops controversial content across Reddit and watches it burn.",
      ["Excellent at generating discussion", "Fearless and uncensored voice", "High virality potential"],
      ["Leaves a trail of drama", "Banned in more subs than average", "Hard to build long-term credibility"],
      ["A classic internet troll", "AMA bomb thrower"])
    case Craftsman => TypeInfo("The Craftsman",
      "Quietly crafts quality niche content that earns loyal respect.",
      ["Deep expertise in their field", "Consistent and reliable output", "Trusted voice in their community"],
      ["Struggles to break out of niche", "Low virality ceiling", "Often underappreciated by outsiders"],
      ["A subreddit wiki maintainer", "hobby expert"])
    case Wanderer => TypeInfo("The Wanderer",
      "A curious creator who posts good stuff wherever inspiration strikes.",
      ["Versatile and adaptable", "Always fresh perspective", "Good across many topics"],
      ["Jack of all trades, master of none", "No consistent audience", "Posts can feel scattered"],
      ["A casual Redditor", "hobbyist poster"])
    case Specialist => TypeInfo("The Specialist",
      "A focused, low-key creator who takes no prisoners in their niche.",
      ["Deep niche knowledge", "Straightforward and no-nonsense", "Highly respected by insiders"],
      ["Can come off as dismissive", "Low crossover appeal", "Critical tone repels newcomers"],
      ["A technical sub expert", "contrarian hobbyist"])
    case Drifter => TypeInfo("The Drifter",
      "Floats across Reddit, leaving critical opinions in the wake.",
      ["Broad knowledge base", "Honest and unfiltered", "Always has an opinion"],
      ["No real community home", "Reputation for negativity", "Posts often go unnoticed"],
      ["A serial lurker turned critic", "thread hopper"])
    case Ambassador => TypeInfo("The Ambassador",
      "The warmest presence in their subreddit \U{2014} everyone loves them.",
      ["Deep community roots", "Uplifting and supportive tone", "Go-to person for advice"],
      ["Rarely creates original content", "Can be seen as an enabler", "Low individual name recognition"],
      ["A longtime sub moderator", "community pillar"])
    case Butterfly => TypeInfo("The Butterfly",
      "Spreads positivity across every subreddit they visit.",
      ["Universally liked", "Breaks echo chambers", "High comment karma magnet"],
      ["Comments without deep context", "Surface-level engagement", "Hard to pin down a specialty"],
      ["A casual commenter", "friendly generalist"])
    case Gatekeeper => TypeInfo("The Gatekeeper",
      "The niche community's fiercest defender and harshest critic.",
      ["Enforces high community standards", "Deep sub knowledge", "Cuts through bad takes fast"],
      ["Intimidates newcomers", "Reputation for gatekeeping", "Gets into comment wars often"],
      ["A sub veteran", "r/gatekeeping regular"])
    case Contrarian => TypeInfo("The Contrarian",
      "Roams Reddit unpacking bad takes and delivering hard truths.",
      ["Fearless in calling out BS", "Broad knowledge base", "Keeps discussions honest"],
      ["Gets downvoted frequently", "Can be exhausting to interact with", "Rarely wins karma"],
      ["A debate sub regular", "devil's advocate"])
    case Sage => TypeInfo("The Sage",
      "A quiet, focused commenter whose words carry real weight.",
      ["Highly trusted perspective", "Thoughtful and nuanced", "In-depth comment quality"],
      ["Low output limits influence", "Can seem elitist", "Hard to discover organically"],
      ["A subreddit elder", "expert lurker"])
    case Explorer => TypeInfo("The Explorer",
      "Wanders across Reddit, leaving thoughtful observations everywhere.",
      ["Broad curiosity and knowledge", "Uplifting presence", "Well-regarded in many communities"],
      ["No persistent identity", "Easy to forget", "Rarely builds a following"],
      ["A casual helpful commenter", "curious generalist"])
    case Purist => TypeInfo("The Purist",
      "The uncompromising voice of standards in their chosen community.",
      ["Crystal-clear standards", "Sub experts respect them", "Never sugarcoats"],
      ["Abrasive to newcomers", "Often misread as hostile", "Low karma for the effort"],
      ["A strict sub regular", "rules enforcer"])
    case Phantom => TypeInfo("The Phantom",
      "Appears from nowhere with a sharp comment, then vanishes.",
      ["Unpredictable and interesting", "Cuts through noise efficiently", "No tribal loyalty"],
      ["No community investment", "Often misunderstood", "Hard to build on reputation"],
      ["A ghost account", "thread sniper"])
  }

  const FallbackCode := "KIPB"

  /** `{ code, ...(TYPES[code] || TYPES['KIPB']) }` */
  function DerivePersonalityType(a: Scores): PersonalityType
  {
    var code := Code(a);
    PersonalityType(code, Info(if code in Types then Types[code] else Types[FallbackCode]))
  }

  // -------------------------------------------------------------- properties

  /** The code is four letters, one from each pair. */
  lemma CodeLetters(a: Scores)
    ensures |Code(a)| == 4
    ensures Code(a)[0] in "CK" && Code(a)[1] in "VI" && Code(a)[2] in "PX" && Code(a)[3] in "FB"
    ensures (Code(a)[0] == 'C') == (a.creator >= 50) && (Code(a)[1] == 'V') == (a.viral >= 50)
    ensures (Code(a)[2] == 'P') == (a.positive >= 50) && (Code(a)[3] == 'F') == (a.focused >= 50)
  {
  }

  /** Each score is between 0 and 100, except that a negative average score
      gives a negative viral score. */
  lemma ScoreRanges(ratioTenths: int, avgPostScore: int, subreddits: nat)
    ensures 0 <= CreatorScore(ratioTenths) <= 100 && 0 <= FocusedScore(subreddits) <= 100
    ensures ViralScore(avgPostScore) <= 100
    ensures avgPostScore >= 0 ==> ViralScore(avgPostScore) >= 0
  {
    if avgPostScore < 500 {
      RoundDivAtLeast(avgPostScore, 5, 0);
      RoundDivAtLeast(avgPostScore, 5, 101);
    }
  }

  /** The letter C exactly when the comment/post ratio is at most 10.1. */
  lemma CreatorLetter(ratioTenths: int)
    ensures CreatorScore(ratioTenths) >= 50 <==> ratioTenths <= 101
  {
    RoundDivAtLeast(200 - ratioTenths, 2, 50);
  }

  /** The letter V exactly when the average post score is at least 248. */
  lemma ViralLetter(avgPostScore: int)
    ensures ViralScore(avgPostScore) >= 50 <==> avgPostScore >= 248
  {
    RoundDivAtLeast(avgPostScore, 5, 50);
  }

  /** The letter F exactly when there are at most five top subreddits. */
  lemma FocusedLetter(subreddits: nat)
    ensures FocusedScore(subreddits) >= 50 <==> subreddits <= 5
  {
  }

  /** Every code that starts with "CI" misses the table and is reported with
      the entry of `KIPB`, under its own code. */
  lemma CreatorIntimateFallsBack(a: Scores)
    requires a.creator >= 50 && a.viral < 50
    ensures DerivePersonalityType(a).code == Code(a)
    ensures DerivePersonalityType(a).info == Info(Types[FallbackCode])
    ensures DerivePersonalityType(a).info.name == "The Explorer"
  {
    NoFourLetterCIKey(Code(a));
  }

  /** No four-letter key of `TYPES` starts with "CI". */
  lemma NoFourLetterCIKey(code: string)
    requires |code| == 4 && code[0] == 'C' && code[1] == 'I'
    ensures code !in Types
  {
    forall k | k in Types ensures k != code {
      if |k| == 4 { assert k[0] != 'C' || k[1] != 'I'; }
    }
  }

  /** Every other code has an entry of its own. */
  lemma OtherCodesFound(a: Scores)
    requires !(a.creator >= 50 && a.viral < 50)
    ensures Code(a) in Types && DerivePersonalityType(a).info == Info(Types[Code(a)])
  {
  }

  /** The four "CI" entries of the table are the ones with five-letter keys, so
      no four-letter code can reach them. */
  lemma MisspeltKeys()
    ensures forall k | k in Types && |k| != 4 :: k in {"CIVPF", "CIVPB", "CIVXF", "CIVXB"}
  {
  }

  // ------------------------------------------------------------- as intended

  /** The key under which the table holds the type of a code, as the entries
      evidently mean it: the name and tagline of `CIVPF`, "The Craftsman",
      describe a creator (C) with intimate reach (I), positive (P) and focused
      (F), that is the code `CIPF`. */
  function IntendedKey(code: string): string
  {
    if |code| == 4 && code[..2] == "CI" then "CIV" + code[2..] else code
  }

  /** `derivePersonalityType` with the "CI" entries reached under their codes. */
  function DerivePersonalityTypeIntended(a: Scores): PersonalityType
  {
    var code := Code(a);
    var key := IntendedKey(code);
    PersonalityType(code, Info(if key in Types then Types[key] else Types[FallbackCode]))
  }

  /** With the corrected keys every one of the sixteen codes has an entry of
      its own. */
  lemma IntendedCoversEveryCode(a: Scores)
    ensures IntendedKey(Code(a)) in Types
    ensures DerivePersonalityTypeIntended(a).info == Info(Types[IntendedKey(Code(a))])
  {
    var code := Code(a);
    if a.creator >= 50 && a.viral < 50 {
      var key := IntendedKey(code);
      assert key == "CIV" + code[2..];
      if a.positive >= 50 && a.focused >= 50 { assert key == "CIVPF"; }
      else if a.positive >= 50 { assert key == "CIVPB"; }
      else if a.focused >= 50 { assert key == "CIVXF"; }
      else { assert key == "CIVXB"; }
    } else {
      assert code[..2] != "CI" by {
        assert code[..2][0] == code[0] && code[..2][1] == code[1];
      }
      OtherCodesFound(a);
    }
  }

  /** The code a key of the intended table stands for: a five-letter "CIV"
      key drops its `V`. */
  function KeyCode(key: string): string
  {
    if |key| == 5 then key[..2] + key[3..] else key
  }

  /** Every four-letter code is recovered from its intended key. */
  lemma IntendedKeyRecovers(code: string)
    requires |code| == 4
    ensures KeyCode(IntendedKey(code)) == code
  {
    if code[..2] == "CI" {
      var key := "CIV" + code[2..];
      assert key[..2] == code[..2] && key[3..] == code[2..];
      assert code == code[..2] + code[2..];
    }
  }

  /** Distinct codes are looked up under distinct keys. */
  lemma IntendedKeysDistinct(a: Scores, b: Scores)
    requires Code(a) != Code(b)
    ensures IntendedKey(Code(a)) != IntendedKey(Code(b))
  {
    IntendedKeyRecovers(Code(a));
    IntendedKeyRecovers(Code(b));
  }
}
