// Lexicon sentiment (`calcSentiment`): the share of positive words among the
// words found in either lexicon, over post titles and comment bodies.

module Sentiment {
  import opened Numeric
  import opened Seqs
  import opened Text
  import opened Items

  const Positive: set<string> := {
    "good", "great", "best", "love", "awesome", "amazing", "excellent", "wonderful", "fantastic",
    "happy", "glad", "thanks", "thank", "helpful", "nice", "perfect", "brilliant", "beautiful", "enjoy", "enjoyed",
    "useful", "interesting", "incredible", "impressive", "outstanding", "positive", "agree", "correct", "right"}

  const Negative: set<string> := {
    "bad", "worst", "hate", "awful", "terrible", "horrible", "disgusting", "wrong", "broken",
    "stupid", "idiot", "dumb", "annoying", "fail", "failed", "disappointed", "useless", "pathetic", "garbage",
    "trash", "scam", "lie", "lying", "fake", "false", "misleading", "disagree", "incorrect", "evil"}

  predicate IsPositive(w: string) { w in Positive }
  predicate IsNegative(w: string) { w in Negative }

  /** `txt.toLowerCase().split(/\W+/)` without the empty strings, which are in
      neither lexicon. */
  function Words(txt: string): seq<string>
  {
    Split(Lower(txt), IsWordChar)
  }

  /** The texts scored: post titles, then comment bodies. */
  function Texts(posts: seq<Item>, comments: seq<Item>): seq<string>
  {
    seq(|posts|, i requires 0 <= i < |posts| => posts[i].title)
    + seq(|comments|, i requires 0 <= i < |comments| => comments[i].body)
  }

  /** Lexicon hits over a sequence of texts. */
  function PositiveIn(texts: seq<string>): nat
  {
    if texts == [] then 0 else PositiveIn(texts[..|texts| - 1]) + CountWhere(Words(texts[|texts| - 1]), IsPositive)
  }

  function NegativeIn(texts: seq<string>): nat
  {
    if texts == [] then 0 else NegativeIn(texts[..|texts| - 1]) + CountWhere(Words(texts[|texts| - 1]), IsNegative)
  }

  lemma HitsSnoc(texts: seq<string>, i: nat)
    requires i < |texts|
    ensures PositiveIn(texts[..i + 1]) == PositiveIn(texts[..i]) + CountWhere(Words(texts[i]), IsPositive)
    ensures NegativeIn(texts[..i + 1]) == NegativeIn(texts[..i]) + CountWhere(Words(texts[i]), IsNegative)
  {
    assert texts[..i + 1][..i] == texts[..i];
  }

  /** The score for `pos` positive and `neg` negative hits. */
  function Score(pos: nat, neg: nat): int
  {
    if pos + neg == 0 then 50 else RoundDiv(100 * pos, pos + neg)
  }

  function SentimentOf(posts: seq<Item>, comments: seq<Item>): int
  {
    var texts := Texts(posts, comments);
    Score(PositiveIn(texts), NegativeIn(texts))
  }

  /** The score is a percentage. It is 50 with no hits and with as many
      positive as negative hits, at least 50 when positive hits outnumber
      negative ones and at most 50 in the opposite case; it is 100 with
      positive hits only and 0 with negative hits only. */
  lemma {:induction false} ScoreProperties(pos: nat, neg: nat)
    ensures 0 <= Score(pos, neg) <= 100
    ensures pos == neg ==> Score(pos, neg) == 50
    ensures pos >= neg ==> Score(pos, neg) >= 50
    ensures pos <= neg ==> Score(pos, neg) <= 50
    ensures pos > 0 && neg == 0 ==> Score(pos, neg) == 100
    ensures pos == 0 && neg > 0 ==> Score(pos, neg) == 0
  {
    var t := pos + neg;
    if t > 0 {
      PercentInRange(pos, t);
      RoundDivAtLeast(100 * pos, t, 50);
      RoundDivAtLeast(100 * pos, t, 51);
      RoundDivAtLeast(100 * pos, t, 100);
      RoundDivAtLeast(100 * pos, t, 1);
    }
  }

  /** The per-text step `addText`, which bumps the two counters word by word. */
  method AddText(txt: string, pos0: nat, neg0: nat) returns (pos: nat, neg: nat)
    ensures pos == pos0 + CountWhere(Words(txt), IsPositive)
    ensures neg == neg0 + CountWhere(Words(txt), IsNegative)
  {
    pos, neg := pos0, neg0;
    if txt == "" {
      assert Lower(txt) == "";
      return;
    }
    var ws := Words(txt);
    for j := 0 to |ws|
      invariant pos == pos0 + CountWhere(ws[..j], IsPositive)
      invariant neg == neg0 + CountWhere(ws[..j], IsNegative)
    {
      assert ws[..j + 1] == ws[..j] + [ws[j]];
      CountWhereSnoc(ws[..j], ws[j], IsPositive);
      CountWhereSnoc(ws[..j], ws[j], IsNegative);
      if ws[j] in Positive {
        pos := pos + 1;
      }
      if ws[j] in Negative {
        neg := neg + 1;
      }
    }
    assert ws[..|ws|] == ws;
  }

  /** `calcSentiment(posts, comments)` */
  method CalcSentiment(posts: seq<Item>, comments: seq<Item>) returns (score: int)
    ensures score == SentimentOf(posts, comments)
  {
    var texts := Texts(posts, comments);
    var pos: nat, neg: nat := 0, 0;
    for i := 0 to |texts|
      invariant pos == PositiveIn(texts[..i]) && neg == NegativeIn(texts[..i])
    {
      HitsSnoc(texts, i);
      pos, neg := AddText(texts[i], pos, neg);
    }
    assert texts[..|texts|] == texts;
    score := Score(pos, neg);
  }
}
