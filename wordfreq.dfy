// Word frequency (`buildWordFrequency`): the forty most frequent content
// words of post titles and comment bodies, with their counts.

module WordFrequency {
  import opened Seqs
  import opened Text
  import opened Ranking
  import opened Items
  import Sentiment

  /** `STOP`, as the union of four set displays. */
  const Stop: set<string> := StopA + StopB + StopC + StopD
  const StopA: set<string> := {
      "the", "a", "an", "and", "or", "but", "in", "on", "at", "to", "for", "of", "with", "is", "are", "was",
      "were", "be", "been", "have", "has", "had", "do", "does", "did", "will", "would", "could", "should", "may", "might", "this",
      "that", "these", "those"}
  const StopB: set<string> := {
      "i", "my", "me", "we", "our", "you", "your", "he", "his", "she", "her", "they", "their", "it", "its", "not",
      "so", "as", "if", "by", "from", "up", "out", "about", "just", "no", "more", "when", "what", "all", "one", "can",
      "get", "like", "than"}
  const StopC: set<string> := {
      "then", "there", "also", "into", "after", "before", "how", "which", "who", "re", "https", "www", "http", "amp", "gt", "lt",
      "edit", "deleted", "removed", "really", "very", "much", "still", "even", "some", "only", "any", "other", "same", "too", "most", "over",
      "such", "back", "well"}
  const StopD: set<string> := {
      "know", "think", "want", "need", "dont", "cant", "wont", "here", "now", "people", "time", "year", "make", "made", "use", "used",
      "going", "come", "see"}

  /** No stop word is longer than seven characters. */
  lemma LongWordsAreNotStopWords(w: string)
    requires |w| > 7
    ensures w !in Stop
  {
    LongNotInA(w);
    LongNotInB(w);
    LongNotInC(w);
    LongNotInD(w);
  }

  lemma LongNotInA(w: string)
    requires |w| > 7
    ensures w !in StopA
  {
  }

  lemma LongNotInB(w: string)
    requires |w| > 7
    ensures w !in StopB
  {
  }

  lemma LongNotInC(w: string)
    requires |w| > 7
    ensures w !in StopC
  {
  }

  lemma LongNotInD(w: string)
    requires |w| > 7
    ensures w !in StopD
  {
  }

  const TopWords: nat := 40

  /** `txt.toLowerCase().replace(/[^a-z0-9\s]/g, ' ').split(/\s+/)` without
      empty strings: every character outside `[a-z0-9]` separates words. */
  function Tokens(txt: string): seq<string>
  {
    Split(Lower(txt), IsLowerAlnum)
  }

  /** `w.length > 3 && !STOP.has(w) && isNaN(w)` */
  predicate Keep(w: string)
  {
    |w| > 3 && w !in Stop && !IsNumericLiteral(w)
  }

  /** The words counted, text by text, in order. */
  function KeptWords(texts: seq<string>): seq<string>
  {
    if texts == [] then [] else KeptWords(texts[..|texts| - 1]) + Filter(Tokens(texts[|texts| - 1]), Keep)
  }

  /** `buildWordFrequency(posts, comments)` as a value: the tally of the kept
      words, ranked by count, cut to forty entries. */
  function WordFrequencyOf(posts: seq<Item>, comments: seq<Item>): seq<Entry<string>>
  {
    Take(Rank(Tally(KeptWords(Sentiment.Texts(posts, comments)))), TopWords)
  }

  lemma KeptWordsKept(texts: seq<string>)
    ensures forall w | w in KeptWords(texts) :: Keep(w)
  {
    if texts != [] {
      KeptWordsKept(texts[..|texts| - 1]);
    }
  }

  /** At most forty entries, highest count first; every word is longer than
      three characters, not a stop word and not numeric, and each count is the
      number of occurrences of its word. */
  lemma WordFrequencyProperties(posts: seq<Item>, comments: seq<Item>)
    ensures var wf := WordFrequencyOf(posts, comments);
      var words := KeptWords(Sentiment.Texts(posts, comments));
      && |wf| <= TopWords
      && NonIncreasing(wf)
      && (forall i | 0 <= i < |wf| :: Keep(wf[i].key) && wf[i].count == multiset(words)[wf[i].key] > 0)
  {
    var words := KeptWords(Sentiment.Texts(posts, comments));
    KeptWordsKept(Sentiment.Texts(posts, comments));
    TopTallyProperties(words, TopWords);
  }

  /** No word is listed twice. */
  lemma WordFrequencyDistinct(posts: seq<Item>, comments: seq<Item>)
    ensures NoDups(Keys(WordFrequencyOf(posts, comments)))
  {
    TopTallyDistinct(KeptWords(Sentiment.Texts(posts, comments)), TopWords);
  }

  /** Words with equal counts appear in the order in which they were first seen. */
  lemma WordFrequencyTies(posts: seq<Item>, comments: seq<Item>, i: nat, j: nat)
    requires var wf := WordFrequencyOf(posts, comments); i < j < |wf| && wf[i].count == wf[j].count
    ensures var wf := WordFrequencyOf(posts, comments);
      Precedes(Distinct(KeptWords(Sentiment.Texts(posts, comments))), wf[i].key, wf[j].key)
  {
    TopTallyTieOrder(KeptWords(Sentiment.Texts(posts, comments)), TopWords, i, j);
  }

  /** The counting loop of `buildWordFrequency` over all texts. */
  method CountTexts(texts: seq<string>) returns (freq: map<string, nat>, order: seq<string>)
    ensures Counted(freq, order, KeptWords(texts))
  {
    freq, order := map[], [];
    for i := 0 to |texts|
      invariant Counted(freq, order, KeptWords(texts[..i]))
    {
      assert texts[..i + 1][..i] == texts[..i];
      freq, order := CountKept(freq, order, KeptWords(texts[..i]), Tokens(texts[i]), Keep);
    }
    assert texts[..|texts|] == texts;
  }

  /** `buildWordFrequency(posts, comments)`: count every kept word into the
      frequency object, then rank its entries. */
  method BuildWordFrequency(posts: seq<Item>, comments: seq<Item>) returns (top: seq<Entry<string>>)
    ensures top == WordFrequencyOf(posts, comments)
  {
    var texts := Sentiment.Texts(posts, comments);
    var freq, order := CountTexts(texts);
    CountedEntries(freq, order, KeptWords(texts));
    var entries := seq(|order|, k requires 0 <= k < |order| => Entry(order[k], freq[order[k]]));
    top := Take(Rank(entries), TopWords);
  }
}
