// The report card: six subject scores, a letter grade for each (`scoreToGrade`),
// the grade point average and its description.

module ReportCard {
  import opened Numeric

  /** `{ letter, color, gpa }`, with the grade points in tenths. */
  datatype Grade = Grade(letter: string, color: string, points: nat)

  /** `scoreToGrade(score)`: the first band whose lower bound the score reaches.
      The minus signs are U+2212. */
  function ScoreToGrade(score: real): Grade
  {
    if score >= 93.0 then Grade("A+", "#06d6a0", 40)
    else if score >= 90.0 then Grade("A", "#06d6a0", 40)
    else if score >= 87.0 then Grade("A\U{2212}", "#4cc9f0", 37)
    else if score >= 83.0 then Grade("B+", "#4cc9f0", 33)
    else if score >= 80.0 then Grade("B", "#9b5de5", 30)
    else if score >= 77.0 then Grade("B\U{2212}", "#9b5de5", 27)
    else if score >= 73.0 then Grade("C+", "#f0b429", 23)
    else if score >= 70.0 then Grade("C", "#f0b429", 20)
    else if score >= 67.0 then Grade("C\U{2212}", "#f0b429", 17)
    else if score >= 60.0 then Grade("D", "#ff6b6b", 10)
    else Grade("F", "#ff4500", 0)
  }

  /** A higher score never earns fewer grade points. */
  lemma ScoreToGradeMonotone(s1: real, s2: real)
    requires s1 <= s2
    ensures ScoreToGrade(s1).points <= ScoreToGrade(s2).points
  {
  }

  /** At most 4.0 points: 4.0 from 90 on, none below 60. */
  lemma ScoreToGradeEnds(s: real)
    ensures ScoreToGrade(s).points <= 40
    ensures ScoreToGrade(s).points == 40 <==> s >= 90.0
    ensures ScoreToGrade(s).points == 0 <==> s < 60.0
  {
  }

  /** One subject row: `{ name, icon, score, comment }`. */
  datatype Subject = Subject(name: string, icon: string, score: int, comment: string)

  /** `Math.min(100, Math.round(Math.min(postsPerMonth, 30) / 30 * 100))`, with
      the rate in tenths. */
  function ConsistencyScore(postsPerMonthTenths: int): int
  {
    Min(100, RoundDiv(100 * Min(postsPerMonthTenths, 300), 300))
  }

  /** `Math.min(100, Math.round(topSubs.length / 10 * 100))` */
  function CommunityScore(subreddits: nat): int
  {
    Min(100, 10 * subreddits)
  }

  /** `Math.min(100, Math.round(Math.min(ratio, 20) / 20 * 100))`, with the ratio
      in tenths. */
  function EngagementScore(ratioTenths: int): int
  {
    Min(100, RoundDiv(100 * Min(ratioTenths, 200), 200))
  }

  /** The computed scores are percentages for the non-negative rates the
      aggregator produces; a full score needs 30 posts a month, ten
      subreddits, or a ratio of 20. */
  lemma SubjectScoreRanges(postsPerMonthTenths: int, subreddits: nat, ratioTenths: int)
    requires postsPerMonthTenths >= 0 && ratioTenths >= 0
    ensures 0 <= ConsistencyScore(postsPerMonthTenths) <= 100
    ensures 0 <= CommunityScore(subreddits) <= 100
    ensures 0 <= EngagementScore(ratioTenths) <= 100
    ensures postsPerMonthTenths >= 300 ==> ConsistencyScore(postsPerMonthTenths) == 100
    ensures CommunityScore(subreddits) == 100 <==> subreddits >= 10
    ensures ratioTenths >= 200 ==> EngagementScore(ratioTenths) == 100
  {
    PercentInRange(Min(postsPerMonthTenths, 300), 300);
    PercentInRange(Min(ratioTenths, 200), 200);
    if postsPerMonthTenths >= 300 { RoundDivAtLeast(100 * 300, 300, 100); }
    if ratioTenths >= 200 { RoundDivAtLeast(100 * 200, 200, 100); }
  }

  /** The six subjects, in order. The content and karma scores are inputs:
      they are logarithms of the average post score and of the karma. */
  function Subjects(content: int, postsPerMonthTenths: int, subreddits: nat, ratioTenths: int,
                    sentiment: int, karma: int): seq<Subject>
  {
    [Subject("Content Quality", "\U{1F4C4}", content, "How upvoted your posts are on average"),
     Subject("Consistency", "\U{1F4C5}", ConsistencyScore(postsPerMonthTenths), "Posting frequency vs. maximum cadence"),
     Subject("Community Presence", "\U{1F310}", CommunityScore(subreddits), "Breadth of subreddit involvement"),
     Subject("Engagement", "\U{1F4AC}", EngagementScore(ratioTenths), "Comment-to-post ratio and interaction depth"),
     Subject("Positive Vibes", "\U{1F60A}", sentiment, "Sentiment positivity across all content"),
     Subject("Karma Accumulated", "\U{2B06}\U{FE0F}", karma, "Total karma earned over account lifetime")]
  }

  /** `subjects.map(s => scoreToGrade(s.score))` */
  function Grades(subjects: seq<Subject>): (r: seq<Grade>)
    ensures |r| == |subjects|
  {
    seq(|subjects|, i requires 0 <= i < |subjects| => ScoreToGrade(subjects[i].score as real))
  }

  function TotalPoints(grades: seq<Grade>): nat
  {
    if grades == [] then 0 else grades[0].points + TotalPoints(grades[1..])
  }

  /** `(sum of gpa / grades.length).toFixed(2)`, in hundredths. */
  function GpaHundredths(grades: seq<Grade>): int
    requires grades != []
  {
    RoundDiv(10 * TotalPoints(grades), |grades|)
  }

  /** The GPA lies between 0.00 and 4.00 ... */
  lemma GpaBounds(grades: seq<Grade>)
    requires grades != []
    requires forall i | 0 <= i < |grades| :: grades[i].points <= 40
    ensures 0 <= GpaHundredths(grades) <= 400
  {
    var n := |grades|;
    PointsAtMost(grades, 40);
    RoundDivAtLeast(10 * TotalPoints(grades), n, 0);
    RoundDivAtLeast(10 * TotalPoints(grades), n, 401);
  }

  /** ... and is the common value when every subject has the same grade points. */
  lemma GpaUniform(grades: seq<Grade>, p: nat)
    requires grades != []
    requires forall i | 0 <= i < |grades| :: grades[i].points == p
    ensures GpaHundredths(grades) == 10 * p
  {
    var n := |grades|;
    PointsEqual(grades, p);
    assert 10 * TotalPoints(grades) == n * (10 * p);
    RoundDivAtLeast(n * (10 * p), n, 10 * p);
    RoundDivAtLeast(n * (10 * p), n, 10 * p + 1);
  }

  lemma {:induction false} PointsAtMost(grades: seq<Grade>, p: nat)
    requires forall i | 0 <= i < |grades| :: grades[i].points <= p
    ensures TotalPoints(grades) <= |grades| * p
  {
    if grades != [] {
      assert forall i | 0 <= i < |grades[1..]| :: grades[1..][i].points <= p by {
        forall i | 0 <= i < |grades[1..]| ensures grades[1..][i].points <= p {
          assert grades[1..][i] == grades[i + 1];
        }
      }
      PointsAtMost(grades[1..], p);
      assert |grades| * p == |grades[1..]| * p + p;
    }
  }

  lemma {:induction false} PointsEqual(grades: seq<Grade>, p: nat)
    requires forall i | 0 <= i < |grades| :: grades[i].points == p
    ensures TotalPoints(grades) == |grades| * p
  {
    if grades != [] {
      assert forall i | 0 <= i < |grades[1..]| :: grades[1..][i].points == p by {
        forall i | 0 <= i < |grades[1..]| ensures grades[1..][i].points == p {
          assert grades[1..][i] == grades[i + 1];
        }
      }
      PointsEqual(grades[1..], p);
      assert |grades| * p == |grades[1..]| * p + p;
    }
  }

  /** The description under the GPA. */
  function GpaDescription(gpaHundredths: int): string
  {
    if gpaHundredths >= 350 then "Dean's List"
    else if gpaHundredths >= 300 then "Honors"
    else if gpaHundredths >= 200 then "Passing"
    else "Needs Improvement"
  }

  /** The report card: the graded subjects, the GPA, the grade of the GPA read
      as a percentage of 4.0, and its description. */
  datatype Card = Card(subjects: seq<Subject>, grades: seq<Grade>, gpaHundredths: int, gpaGrade: Grade, description: string)

  function ReportCardOf(content: int, postsPerMonthTenths: int, subreddits: nat, ratioTenths: int,
                        sentiment: int, karma: int): Card
  {
    var subjects := Subjects(content, postsPerMonthTenths, subreddits, ratioTenths, sentiment, karma);
    var grades := Grades(subjects);
    var gpa := GpaHundredths(grades);
    Card(subjects, grades, gpa, ScoreToGrade(gpa as real / 4.0), GpaDescription(gpa))
  }

  /** The GPA is never above 4.00; straight A grades give 4.00, an A+ overall
      and the Dean's List. */
  lemma ReportCardProperties(content: int, postsPerMonthTenths: int, subreddits: nat, ratioTenths: int,
                             sentiment: int, karma: int)
    ensures var card := ReportCardOf(content, postsPerMonthTenths, subreddits, ratioTenths, sentiment, karma);
      && 0 <= card.gpaHundredths <= 400
      && ((forall i | 0 <= i < 6 :: card.subjects[i].score >= 90) ==>
           card.gpaHundredths == 400 && card.gpaGrade.letter == "A+" && card.description == "Dean's List")
  {
    var subjects := Subjects(content, postsPerMonthTenths, subreddits, ratioTenths, sentiment, karma);
    var grades := Grades(subjects);
    forall i | 0 <= i < |grades| ensures grades[i].points <= 40 {
      ScoreToGradeEnds(subjects[i].score as real);
    }
    GpaBounds(grades);
    if forall i | 0 <= i < 6 :: subjects[i].score >= 90 {
      forall i | 0 <= i < |grades| ensures grades[i].points == 40 {
        ScoreToGradeEnds(subjects[i].score as real);
      }
      GpaUniform(grades, 40);
      assert 400 as real / 4.0 == 100.0;
    }
  }
}
