/** The keyword matcher of the collector: a text is about sinkholes when one
    of three fixed keywords occurs in it literally (no tokenising, no case
    folding, no normalisation). */
module Matcher {

  /** The three topic keywords: "sinkhole", "road collapse", "ground subsidence". */
  const Keywords: seq<string> := ["싱크홀", "도로 꺼짐", "지반 침하"]

  /** `word` occurs in `text` starting at position `i`. */
  ghost predicate OccursAt(text: string, word: string, i: int) {
    0 <= i && i + |word| <= |text| && text[i..i + |word|] == word
  }

  /** `text.includes(word)`: tries every start position from the left. */
  predicate Includes(text: string, word: string)
    decreases |text|
  {
    |word| <= |text| && (text[..|word|] == word || Includes(text[1..], word))
  }

  /** `Includes` holds exactly when the word occurs somewhere in the text. */
  lemma {:induction false} IncludesIff(text: string, word: string)
    ensures Includes(text, word) <==> exists i :: OccursAt(text, word, i)
    decreases |text|
  {
    if |word| <= |text| {
      if text[..|word|] == word {
        assert OccursAt(text, word, 0);
      } else {
        IncludesIff(text[1..], word);
        if Includes(text[1..], word) {
          var i :| OccursAt(text[1..], word, i);
          assert text[1..][i..i + |word|] == text[i + 1..i + 1 + |word|];
          assert OccursAt(text, word, i + 1);
        }
        if i :| OccursAt(text, word, i) {
          assert i != 0;
          assert text[1..][i - 1..i - 1 + |word|] == text[i..i + |word|];
          assert OccursAt(text[1..], word, i - 1);
        }
      }
    }
  }

  /** A word includes itself. */
  lemma IncludesSelf(w: string)
    ensures Includes(w, w)
  {
  }

  /** Text appended after an occurrence keeps it. */
  lemma IncludesAppend(s: string, t: string, w: string)
    requires Includes(s, w)
    ensures Includes(s + t, w)
  {
    IncludesIff(s, w);
    var i :| OccursAt(s, w, i);
    assert (s + t)[i..i + |w|] == s[i..i + |w|];
    assert OccursAt(s + t, w, i);
    IncludesIff(s + t, w);
  }

  /** Text prepended before an occurrence keeps it. */
  lemma IncludesPrepend(t: string, s: string, w: string)
    requires Includes(s, w)
    ensures Includes(t + s, w)
  {
    IncludesIff(s, w);
    var i :| OccursAt(s, w, i);
    assert (t + s)[|t| + i..|t| + i + |w|] == s[i..i + |w|];
    assert OccursAt(t + s, w, |t| + i);
    IncludesIff(t + s, w);
  }

  /** `words.some(w => text.includes(w))`. */
  predicate AnyIncluded(words: seq<string>, text: string) {
    words != [] && (Includes(text, words[0]) || AnyIncluded(words[1..], text))
  }

  lemma {:induction false} AnyIncludedIff(words: seq<string>, text: string)
    ensures AnyIncluded(words, text) <==> exists k, i :: 0 <= k < |words| && OccursAt(text, words[k], i)
  {
    if words != [] {
      AnyIncludedIff(words[1..], text);
      IncludesIff(text, words[0]);
      if k, i :| 0 <= k < |words| && OccursAt(text, words[k], i) {
        if k > 0 {
          assert words[1..][k - 1] == words[k];
        }
      }
      if AnyIncluded(words[1..], text) {
        var k, i :| 0 <= k < |words| - 1 && OccursAt(text, words[1..][k], i);
        assert OccursAt(text, words[k + 1], i);
      }
    }
  }

  /** `containsKeywords`. */
  predicate ContainsKeywords(text: string) {
    AnyIncluded(Keywords, text)
  }

  /** A text matches exactly when one of the three keywords occurs in it. */
  lemma ContainsKeywordsIff(text: string)
    ensures ContainsKeywords(text) <==>
            exists k, i :: 0 <= k < 3 && OccursAt(text, Keywords[k], i)
  {
    AnyIncludedIff(Keywords, text);
  }

  /** Every text holding a keyword matches, whatever surrounds it. */
  lemma KeywordAnywhereMatches(a: string, k: nat, b: string)
    requires k < 3
    ensures ContainsKeywords(a + Keywords[k] + b)
  {
    var text := a + Keywords[k] + b;
    assert text[|a|..|a| + |Keywords[k]|] == Keywords[k];
    assert OccursAt(text, Keywords[k], |a|);
    ContainsKeywordsIff(text);
  }
}
