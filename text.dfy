// Character classes, lower-casing and tokenising, as the engine's regular
// expressions and string methods use them.

module Text {
  import opened Seqs

  /** `\w` in a JavaScript regular expression without the `u` flag. */
  predicate IsWordChar(c: char)
  {
    ('a' <= c <= 'z') || ('A' <= c <= 'Z') || ('0' <= c <= '9') || c == '_'
  }

  /** `[a-z0-9]` */
  predicate IsLowerAlnum(c: char)
  {
    ('a' <= c <= 'z') || ('0' <= c <= '9')
  }

  predicate IsDigit(c: char) { '0' <= c <= '9' }

  /** Lower case of one character. ASCII letters map to their lower case;
      KELVIN SIGN lower-cases to ASCII `k` and LATIN CAPITAL LETTER I WITH DOT
      ABOVE to `i` followed by COMBINING DOT ABOVE. These are the only
      characters whose lower case contains an ASCII letter or digit, so every
      other character is kept as it is: its lower case is again neither a
      word character nor in `[a-z0-9]`. */
  function LowerChar(c: char): (r: string)
    ensures 'A' <= c <= 'Z' ==> r == [(c as int + 32) as char]
    ensures IsWordChar(c) ==> |r| == 1 && IsWordChar(r[0]) && !('A' <= r[0] <= 'Z')
  {
    if 'A' <= c <= 'Z' then [(c as int + 32) as char]
    else if c == '\U{212A}' then "k"
    else if c == '\U{0130}' then "i\U{0307}"
    else [c]
  }

  /** `String.prototype.toLowerCase`, restricted as `LowerChar` says. */
  function Lower(s: string): (r: string)
    ensures forall c | c in r :: !('A' <= c <= 'Z')
  {
    if s == [] then [] else LowerChar(s[0]) + Lower(s[1..])
  }

  /** Folding ASCII letters to lower case, as a case-insensitive regular
      expression without the `u` flag compares a pattern made of ASCII letters:
      no character outside ASCII matches an ASCII letter there. */
  function AsciiLower(s: string): (r: string)
    ensures |r| == |s|
  {
    if s == [] then [] else [if 'A' <= s[0] <= 'Z' then (s[0] as int + 32) as char else s[0]] + AsciiLower(s[1..])
  }

  /** The maximal non-empty runs of characters satisfying `keep`, in order.
      This is `s.split(sep)` for a separator matching one or more characters
      outside `keep`, without the empty strings that `split` also returns. */
  function Split(s: string, keep: char -> bool): (r: seq<string>)
    ensures forall w | w in r :: w != [] && forall c | c in w :: keep(c)
  {
    SplitFrom(s, keep, "")
  }

  function SplitFrom(s: string, keep: char -> bool, cur: string): (r: seq<string>)
    requires forall c | c in cur :: keep(c)
    ensures forall w | w in r :: w != [] && forall c | c in w :: keep(c)
    decreases |s|
  {
    if s == [] then (if cur == [] then [] else [cur])
    else if keep(s[0]) then SplitFrom(s[1..], keep, cur + [s[0]])
    else (if cur == [] then [] else [cur]) + SplitFrom(s[1..], keep, "")
  }

  lemma {:induction false} SplitFromFlatten(s: string, keep: char -> bool, cur: string)
    requires forall c | c in cur :: keep(c)
    ensures Concat(SplitFrom(s, keep, cur)) == cur + Filter(s, keep)
    decreases |s|
  {
    var head: seq<string> := if cur == [] then [] else [cur];
    assert Concat(head) == cur by {
      if cur != [] { assert Concat([cur]) == Concat([cur][..0]) + cur; }
    }
    if s == [] {
      assert SplitFrom(s, keep, cur) == head;
      assert cur + Filter(s, keep) == cur;
    } else {
      var rest := Filter(s[1..], keep);
      assert Filter(s, keep) == (if keep(s[0]) then [s[0]] else []) + rest;
      if keep(s[0]) {
        assert SplitFrom(s, keep, cur) == SplitFrom(s[1..], keep, cur + [s[0]]);
        SplitFromFlatten(s[1..], keep, cur + [s[0]]);
        assert (cur + [s[0]]) + rest == cur + ([s[0]] + rest);
      } else {
        var tail := SplitFrom(s[1..], keep, "");
        assert SplitFrom(s, keep, cur) == head + tail;
        SplitFromFlatten(s[1..], keep, "");
        assert Concat(tail) == rest;
        ConcatAppend(head, tail);
        assert [] + rest == rest;
      }
    }
  }

  /** Splitting loses only separators: the words, joined, are the kept
      characters of the text in order. */
  lemma SplitFlatten(s: string, keep: char -> bool)
    ensures Concat(Split(s, keep)) == Filter(s, keep)
  {
    SplitFromFlatten(s, keep, "");
  }

  lemma {:induction false} SplitFromSeparator(a: string, c: char, b: string, keep: char -> bool, cur: string)
    requires !keep(c) && forall x | x in cur :: keep(x)
    ensures SplitFrom(a + [c] + b, keep, cur) == SplitFrom(a, keep, cur) + SplitFrom(b, keep, "")
    decreases |a|
  {
    var s := a + [c] + b;
    if a == [] {
      assert s[0] == c && s[1..] == b;
    } else {
      assert s[0] == a[0] && s[1..] == a[1..] + [c] + b;
      if keep(a[0]) {
        SplitFromSeparator(a[1..], c, b, keep, cur + [a[0]]);
      } else {
        SplitFromSeparator(a[1..], c, b, keep, "");
      }
    }
  }

  /** A separator cuts the text: the words of each side, in order, and no word
      spans it. */
  lemma SplitAtSeparator(a: string, c: char, b: string, keep: char -> bool)
    requires !keep(c)
    ensures Split(a + [c] + b, keep) == Split(a, keep) + Split(b, keep)
  {
    SplitFromSeparator(a, c, b, keep, "");
  }

  lemma {:induction false} SplitFromRun(s: string, keep: char -> bool, cur: string)
    requires forall x | x in cur :: keep(x)
    requires forall x | x in s :: keep(x)
    ensures SplitFrom(s, keep, cur) == if cur + s == [] then [] else [cur + s]
    decreases |s|
  {
    if s != [] {
      assert s[0] in s;
      assert forall x | x in s[1..] :: x in s;
      SplitFromRun(s[1..], keep, cur + [s[0]]);
      assert cur + [s[0]] + s[1..] == cur + s;
    } else {
      assert cur + s == cur;
    }
  }

  /** A non-empty run of kept characters is a single word. */
  lemma SplitRun(s: string, keep: char -> bool)
    requires s != [] && forall x | x in s :: keep(x)
    ensures Split(s, keep) == [s]
  {
    SplitFromRun(s, keep, "");
    assert "" + s == s;
  }

  predicate AllChars(s: string, p: char -> bool)
  {
    forall i | 0 <= i < |s| :: p(s[i])
  }

  predicate IsHexDigit(c: char) { IsDigit(c) || ('a' <= c <= 'f') }
  predicate IsOctDigit(c: char) { '0' <= c <= '7' }
  predicate IsBinDigit(c: char) { c == '0' || c == '1' }

  /** `!isNaN(w)` for a token `w` made of `[a-z0-9]`: `Number(w)` is a number
      exactly when `w` is a decimal integer, a decimal integer with an exponent
      `e` followed by decimal digits, or a `0x`, `0o` or `0b` literal. */
  predicate IsNumericLiteral(w: string)
  {
    (w != [] && AllChars(w, IsDigit))
    || (exists k | 0 < k < |w| - 1 :: w[k] == 'e' && AllChars(w[..k], IsDigit) && AllChars(w[k + 1..], IsDigit))
    || (|w| > 2 && w[0] == '0' && w[1] == 'x' && AllChars(w[2..], IsHexDigit))
    || (|w| > 2 && w[0] == '0' && w[1] == 'o' && AllChars(w[2..], IsOctDigit))
    || (|w| > 2 && w[0] == '0' && w[1] == 'b' && AllChars(w[2..], IsBinDigit))
  }

  /** `needle` occurs in `hay` starting at index `i`. */
  predicate OccursAt(hay: string, needle: string, i: int)
  {
    0 <= i && i + |needle| <= |hay| && hay[i..i + |needle|] == needle
  }

  /** `hay.includes(needle)` */
  function Contains(hay: string, needle: string): (b: bool)
    ensures b <==> exists i :: OccursAt(hay, needle, i)
    decreases |hay|
  {
    if |needle| > |hay| then
      assert forall i :: !OccursAt(hay, needle, i);
      false
    else if hay[..|needle|] == needle then
      assert OccursAt(hay, needle, 0);
      true
    else
      var rest := Contains(hay[1..], needle);
      assert forall i :: OccursAt(hay[1..], needle, i) <==> OccursAt(hay, needle, i + 1) by {
        forall i ensures OccursAt(hay[1..], needle, i) <==> OccursAt(hay, needle, i + 1) {
          if 0 <= i && i + |needle| <= |hay[1..]| {
            assert hay[1..][i..i + |needle|] == hay[i + 1..i + 1 + |needle|];
          }
        }
      }
      assert !OccursAt(hay, needle, 0);
      assert rest <==> exists i :: OccursAt(hay, needle, i) by {
        if rest {
          var j :| OccursAt(hay[1..], needle, j);
          assert OccursAt(hay, needle, j + 1);
        }
        if exists i :: OccursAt(hay, needle, i) {
          var j :| OccursAt(hay, needle, j);
          assert j != 0;
          assert OccursAt(hay[1..], needle, j - 1);
        }
      }
      rest
  }

  /** The characters `String.prototype.trim` removes: ECMAScript WhiteSpace
      and LineTerminator. */
  predicate IsJsWhitespace(c: char)
  {
    c == '\t' || c == '\U{000B}' || c == '\U{000C}' || c == ' ' || c == '\U{00A0}' || c == '\U{FEFF}'
    || c == '\n' || c == '\r' || c == '\U{2028}' || c == '\U{2029}'
    || c == '\U{1680}' || ('\U{2000}' <= c <= '\U{200A}') || c == '\U{202F}' || c == '\U{205F}' || c == '\U{3000}'
  }

  function TrimStart(s: string): (r: string)
    ensures r == [] || !IsJsWhitespace(r[0])
    ensures exists k | 0 <= k <= |s| :: r == s[k..] && forall i | 0 <= i < k :: IsJsWhitespace(s[i])
  {
    if s != [] && IsJsWhitespace(s[0]) then
      var r := TrimStart(s[1..]);
      var s' := s[1..];
      var k :| 0 <= k <= |s'| && r == s'[k..] && forall i | 0 <= i < k :: IsJsWhitespace(s'[i]);
      assert r == s[k + 1..];
      r
    else
      assert s == s[0..];
      s
  }

  function TrimEnd(s: string): (r: string)
    ensures r == [] || !IsJsWhitespace(r[|r| - 1])
    ensures exists k | 0 <= k <= |s| :: r == s[..k] && forall i | k <= i < |s| :: IsJsWhitespace(s[i])
  {
    if s != [] && IsJsWhitespace(s[|s| - 1]) then
      var r := TrimEnd(s[..|s| - 1]);
      var s' := s[..|s| - 1];
      var k :| 0 <= k <= |s'| && r == s'[..k] && forall i | k <= i < |s'| :: IsJsWhitespace(s'[i]);
      assert r == s[..k];
      r
    else
      assert s == s[..|s|];
      s
  }

  /** `String.prototype.trim` */
  function Trim(s: string): string
  {
    TrimEnd(TrimStart(s))
  }

  /** `s.replace(/c/g, rep)` for a single character `c`. */
  function ReplaceAll(s: string, c: char, rep: string): (r: string)
    ensures c !in rep ==> c !in r
  {
    if s == [] then [] else (if s[0] == c then rep else [s[0]]) + ReplaceAll(s[1..], c, rep)
  }

  lemma {:induction false} ReplaceAllAppend(a: string, b: string, c: char, rep: string)
    ensures ReplaceAll(a + b, c, rep) == ReplaceAll(a, c, rep) + ReplaceAll(b, c, rep)
  {
    if a == [] {
      assert a + b == b;
    } else {
      assert (a + b)[1..] == a[1..] + b;
      ReplaceAllAppend(a[1..], b, c, rep);
    }
  }

  /** Replacing a character that does not occur changes nothing. */
  lemma {:induction false} ReplaceAllAbsent(s: string, c: char, rep: string)
    requires c !in s
    ensures ReplaceAll(s, c, rep) == s
  {
    if s != [] {
      assert c !in s[1..];
      ReplaceAllAbsent(s[1..], c, rep);
    }
  }

  /** A character absent from the text and from the replacement stays absent. */
  lemma {:induction false} ReplaceAllKeepsOut(s: string, c: char, rep: string, d: char)
    requires d !in s && d !in rep
    ensures d !in ReplaceAll(s, c, rep)
  {
    if s != [] {
      assert d !in s[1..];
      ReplaceAllKeepsOut(s[1..], c, rep, d);
    }
  }

  /** On a one-character text, the replacement or the character itself. */
  lemma ReplaceAllSingle(x: char, c: char, rep: string)
    ensures ReplaceAll([x], c, rep) == if x == c then rep else [x]
  {
    assert [x][1..] == [];
  }
}
