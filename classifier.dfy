/** The keyword heuristic that decides whether a question needs live, web-grounded information. */
module Classifier {
  import opened Text

  /** The fixed keyword list, in the order the source tries them. */
  const KEYWORDS: seq<string> := ["today", "latest", "notice", "exam", "result", "admit card", "update", "news"]

  /** `ks.some(k => s.includes(k))`. */
  function SomeOccurs(ks: seq<string>, s: string): (b: bool)
    ensures b <==> exists i :: 0 <= i < |ks| && IsSubstring(ks[i], s)
  {
    if ks == [] then
      false
    else
      assert forall i :: 1 <= i < |ks| ==> ks[1..][i - 1] == ks[i];
      Contains(s, ks[0]) || SomeOccurs(ks[1..], s)
  }

  /** `needsRealtime(text)`: some keyword occurs anywhere in the lower-cased text, word boundaries ignored. */
  function NeedsRealtime(text: string): (b: bool)
    ensures b <==> exists i :: 0 <= i < |KEYWORDS| && IsSubstring(KEYWORDS[i], Lower(text))
  {
    SomeOccurs(KEYWORDS, Lower(text))
  }

  /** The characterisation with the eight keywords written out. */
  lemma {:induction false} NeedsRealtimeSpelledOut(text: string)
    ensures NeedsRealtime(text) <==>
      || IsSubstring("today", Lower(text))
      || IsSubstring("latest", Lower(text))
      || IsSubstring("notice", Lower(text))
      || IsSubstring("exam", Lower(text))
      || IsSubstring("result", Lower(text))
      || IsSubstring("admit card", Lower(text))
      || IsSubstring("update", Lower(text))
      || IsSubstring("news", Lower(text))
  {
    assert |KEYWORDS| == 8;
    assert KEYWORDS[0] == "today" && KEYWORDS[1] == "latest" && KEYWORDS[2] == "notice" && KEYWORDS[3] == "exam";
    assert KEYWORDS[4] == "result" && KEYWORDS[5] == "admit card" && KEYWORDS[6] == "update" && KEYWORDS[7] == "news";
  }

  /** The decision ignores ASCII case: lower-casing the text first changes nothing. */
  lemma {:induction false} CaseInsensitive(text: string)
    ensures NeedsRealtime(Lower(text)) == NeedsRealtime(text)
  {
    LowerIdempotent(text);
  }

  /** Matching is monotone: a text that contains a realtime text is itself realtime. */
  lemma {:induction false} Monotone(text: string, larger: string)
    requires IsSubstring(text, larger)
    requires NeedsRealtime(text)
    ensures NeedsRealtime(larger)
  {
    var i :| 0 <= i < |KEYWORDS| && IsSubstring(KEYWORDS[i], Lower(text));
    LowerKeepsSubstring(text, larger);
    SubstringTransitive(KEYWORDS[i], Lower(text), Lower(larger));
  }

  /** Matching is by substring, not by word: any text containing "updated" is realtime. */
  lemma {:induction false} UpdatedIsRealtime(text: string)
    requires IsSubstring("updated", Lower(text))
    ensures NeedsRealtime(text)
  {
    assert StartsWith("updated"[0..], "update");
    SubstringTransitive("update", "updated", Lower(text));
    assert KEYWORDS[6] == "update";
  }

  /** A keyword at the very start of the text is found. */
  lemma TodaysExamResultIsRealtime(text: string)
    requires text == "today's exam result"
    ensures NeedsRealtime(text)
  {
  }

  /** Upper-case keywords are found. */
  lemma {:induction false} LatestExamNoticeIsRealtime(text: string)
    requires text == "What is the LATEST exam notice?"
    ensures NeedsRealtime(text)
  {
    var word := text[12..18];
    assert word == "LATEST";
    LowerSlice(text, 12, 18);
    assert Lower(word) == "latest";
    assert StartsWith(Lower(text)[12..], "latest");
  }

  /** A text with none of the letters d, c, m, r, u, w holds no keyword but "latest": each of the others has one of them. */
  lemma {:induction false} LettersRuleOutKeywords(lowered: string)
    requires forall i :: 0 <= i < |lowered| ==> lowered[i] !in "dcmruw"
    ensures !IsSubstring("today", lowered) && !IsSubstring("notice", lowered) && !IsSubstring("exam", lowered)
    ensures !IsSubstring("result", lowered) && !IsSubstring("admit card", lowered)
    ensures !IsSubstring("update", lowered) && !IsSubstring("news", lowered)
  {
    OccurrenceHasChar("today", lowered, 2);
    OccurrenceHasChar("notice", lowered, 4);
    OccurrenceHasChar("exam", lowered, 3);
    OccurrenceHasChar("result", lowered, 0);
    OccurrenceHasChar("admit card", lowered, 1);
    OccurrenceHasChar("update", lowered, 0);
    OccurrenceHasChar("news", lowered, 2);
  }

  /** A text in which "a" is never followed by "t" does not hold "latest". */
  lemma {:induction false} PairRulesOutLatest(lowered: string)
    requires forall i :: 0 <= i < |lowered| - 1 ==> !(lowered[i] == 'a' && lowered[i + 1] == 't')
    ensures !IsSubstring("latest", lowered)
  {
    OccurrenceHasPair("latest", lowered, 1);
  }

  /** The letters of "explain photosynthesis" that rule out every keyword. */
  lemma PhotosynthesisLetters(lowered: string)
    requires lowered == "explain photosynthesis"
    ensures forall i :: 0 <= i < |lowered| ==> lowered[i] !in "dcmruw"
    ensures forall i :: 0 <= i < |lowered| - 1 ==> !(lowered[i] == 'a' && lowered[i + 1] == 't')
  {
  }

  /** A question with no keyword in it is not realtime. */
  lemma {:induction false} PhotosynthesisIsNotRealtime(text: string)
    requires text == "Explain photosynthesis"
    ensures !NeedsRealtime(text)
  {
    assert Lower(text) == "explain photosynthesis";
    PhotosynthesisLetters(Lower(text));
    LettersRuleOutKeywords(Lower(text));
    PairRulesOutLatest(Lower(text));
  }
}
