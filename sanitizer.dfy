/** The phonetic sanitizer: it corrects speech-to-text output against a
    vocabulary of known device and area names, using the Sørensen–Dice
    similarity of character trigrams over windows of three, two and one words. */
module Sanitizer {
  import opened Common
  import opened Text

  const DefaultThreshold: real := 0.75

  /** The text `_get_trigrams` works on: lower-cased, every space removed. */
  function TrigramText(text: string): string {
    Replace(ToLower(text), " ", "")
  }

  /** The trigrams of an already cleaned string, collected from the front. */
  function TrigramSet(c: string): (r: set<string>)
    ensures forall t :: t in r ==> |t| == 3
    ensures r == {} <==> |c| < 3
    decreases |c|
  {
    if |c| < 3 then {} else {c[..3]} + TrigramSet(c[1..])
  }

  /** `_get_trigrams`. */
  function Trigrams(text: string): set<string> {
    TrigramSet(TrigramText(text))
  }

  /** The trigram set holds exactly the length-3 substrings: `cleaned[i:i+3]` for every
      `i` in `range(len(cleaned) - 2)`. */
  lemma {:induction false} TrigramSetMembers(c: string, t: string)
    ensures t in TrigramSet(c) <==> |t| == 3 && IsSubstring(t, c)
    decreases |c|
  {
    if |c| >= 3 {
      TrigramSetMembers(c[1..], t);
      SubstringOfTail(t, c);
      if t == c[..3] {
        assert OccursAt(t, c, 0);
      }
      if |t| == 3 && IsSubstring(t, c) {
        var i :| 0 <= i <= |c| && OccursAt(t, c, i);
        if i > 0 {
          assert c[1..][i - 1..i + 2] == c[i..i + 3];
          assert OccursAt(t, c[1..], i - 1);
        } else {
          assert t == c[..3];
        }
      }
    } else if IsSubstring(t, c) {
      var i :| 0 <= i <= |c| && OccursAt(t, c, i);
    }
  }

  /** `_dice_coefficient`: 2·|A∩B| / (|A| + |B|), and 0 when either trigram set is empty. */
  function Dice(s1: string, s2: string): real {
    var t1 := Trigrams(s1);
    var t2 := Trigrams(s2);
    if t1 == {} || t2 == {} then 0.0
    else (2 * |t1 * t2|) as real / (|t1| + |t2|) as real
  }

  lemma DiceSymmetric(s1: string, s2: string)
    ensures Dice(s1, s2) == Dice(s2, s1)
  {
    assert Trigrams(s1) * Trigrams(s2) == Trigrams(s2) * Trigrams(s1);
  }

  lemma SubsetCardinality<T>(a: set<T>, b: set<T>)
    requires a <= b
    ensures |a| <= |b|
  {
    assert b == a + (b - a);
  }

  /** The similarity is a ratio between 0 and 1. */
  lemma DiceBounds(s1: string, s2: string)
    ensures 0.0 <= Dice(s1, s2) <= 1.0
  {
    var t1 := Trigrams(s1);
    var t2 := Trigrams(s2);
    if t1 != {} && t2 != {} {
      SubsetCardinality(t1 * t2, t1);
      SubsetCardinality(t1 * t2, t2);
      RatioBounds(2 * |t1 * t2|, |t1| + |t2|);
    }
  }

  lemma RatioBounds(n: nat, d: nat)
    requires 0 < d && n <= d
    ensures 0.0 <= n as real / d as real <= 1.0
  {
    var q := n as real / d as real;
    assert q * d as real == n as real;
  }

  /** A text with at least three non-space characters is fully similar to itself. */
  lemma DiceSelf(s: string)
    requires |TrigramText(s)| >= 3
    ensures Dice(s, s) == 1.0
  {
    var t := Trigrams(s);
    assert t * t == t;
    var d := (|t| + |t|) as real;
    assert d / d == 1.0;
  }

  /** The running best of the vocabulary scan: the entry kept and its score. */
  datatype Match = Match(best: Option<string>, score: real)

  /** The score of every vocabulary entry against the chunk, in iteration order. */
  function DiceScores(chunk: string, vocab: seq<string>): (s: seq<real>)
    ensures |s| == |vocab|
    ensures forall k :: 0 <= k < |vocab| ==> s[k] == Dice(chunk, vocab[k])
  {
    seq(|vocab|, k requires 0 <= k < |vocab| => Dice(chunk, vocab[k]))
  }

  /** The inner loop of `sanitize`, over the entries in iteration order and their scores:
      an entry replaces the current best only when it scores strictly higher. */
  function BestOf(vocab: seq<string>, scores: seq<real>): Match
    requires |scores| == |vocab|
    decreases |vocab|
  {
    if vocab == [] then Match(None, 0.0)
    else
      var n := |vocab| - 1;
      var m := BestOf(vocab[..n], scores[..n]);
      if scores[n] > m.score then Match(Some(vocab[n]), scores[n]) else m
  }

  function BestMatch(chunk: string, vocab: seq<string>): Match {
    BestOf(vocab, DiceScores(chunk, vocab))
  }

  /** The best match is the first entry reaching the maximal score, when that score is positive;
      with no positive score nothing is kept and the score is 0. */
  lemma {:induction false} BestOfIsFirstMaximum(vocab: seq<string>, scores: seq<real>)
    requires |scores| == |vocab|
    ensures BestOf(vocab, scores).score >= 0.0
    ensures forall j :: 0 <= j < |scores| ==> scores[j] <= BestOf(vocab, scores).score
    ensures BestOf(vocab, scores).best.None? ==> BestOf(vocab, scores).score == 0.0
    ensures BestOf(vocab, scores).best.Some? ==>
              BestOf(vocab, scores).score > 0.0 &&
              exists k :: FirstMaximum(scores, k) && vocab[k] == BestOf(vocab, scores).best.value
                       && scores[k] == BestOf(vocab, scores).score
    decreases |vocab|
  {
    if vocab != [] {
      var n := |vocab| - 1;
      BestOfIsFirstMaximum(vocab[..n], scores[..n]);
      var m := BestOf(vocab[..n], scores[..n]);
      if scores[n] > m.score {
        assert FirstMaximum(scores, n);
      } else if m.best.Some? {
        var k :| FirstMaximum(scores[..n], k) && vocab[..n][k] == m.best.value && scores[..n][k] == m.score;
        assert FirstMaximum(scores, k);
      }
    }
  }

  /** Whether the best match of a window is strong enough to replace it. */
  predicate Replaces(m: Match, threshold: real) {
    m.score >= threshold && m.best.Some? && m.best.value != ""
  }

  /** The window of `size` words starting at word `i`, joined by single spaces. */
  function Chunk(words: seq<string>, i: nat, size: nat): (chunk: string)
    requires i + size <= |words| && 0 < size
    requires AllNonEmpty(words)
    ensures chunk != []
  {
    assert words[i..i + size][0] == words[i];
    Join(" ", words[i..i + size])
  }

  /** Every word is non-empty, as every word of `str.split()` is. */
  ghost predicate AllNonEmpty(words: seq<string>) {
    forall k :: 0 <= k < |words| ==> words[k] != []
  }

  /** One window: every occurrence of the chunk is replaced by its best match, if it is strong enough. */
  function Step(text: string, chunk: string, vocab: seq<string>, threshold: real): string
    requires chunk != []
  {
    var m := BestMatch(chunk, vocab);
    if Replaces(m, threshold) then Replace(text, chunk, m.best.value) else text
  }

  /** All windows of one size, from word `i` on, left to right. */
  function ScanWindows(text: string, words: seq<string>, size: nat, i: nat,
                       vocab: seq<string>, threshold: real): string
    requires 0 < size && AllNonEmpty(words)
    decreases |words| - i
  {
    if i + size > |words| then text
    else ScanWindows(Step(text, Chunk(words, i, size), vocab, threshold), words, size, i + 1, vocab, threshold)
  }

  /** The window sizes `size`, `size - 1`, ..., 1, in that order. */
  function ScanSizes(text: string, words: seq<string>, size: nat, vocab: seq<string>, threshold: real): string
    requires AllNonEmpty(words)
    decreases size
  {
    if size == 0 then text
    else ScanSizes(ScanWindows(text, words, size, 0, vocab, threshold), words, size - 1, vocab, threshold)
  }

  /** What `sanitize` computes: the word list is taken once, from the lower-cased
      input, and the windows of sizes 3, 2, 1 rewrite the text in turn. */
  function SanitizeWith(text: string, vocab: seq<string>, threshold: real): string {
    var lower := ToLower(text);
    ScanSizes(lower, SplitWhitespace(lower), 3, vocab, threshold)
  }

  /** `vocab` lists the elements of `s`, each once: an iteration order of the set. */
  ghost predicate Enumerates(vocab: seq<string>, s: set<string>) {
    && (forall v :: v in vocab <==> v in s)
    && (forall i, j :: 0 <= i < j < |vocab| ==> vocab[i] != vocab[j])
  }

  /** No window of any of the three sizes has a match strong enough to replace it. */
  ghost predicate NoWindowMatches(words: seq<string>, vocab: seq<string>, threshold: real)
    requires AllNonEmpty(words)
  {
    forall size, i :: 1 <= size <= 3 && 0 <= i && i + size <= |words| ==>
      !WindowMatches(words, i, size, vocab, threshold)
  }

  /** The window of `size` words at `i` has a match strong enough to replace it. */
  ghost predicate WindowMatches(words: seq<string>, i: nat, size: nat, vocab: seq<string>, threshold: real)
    requires i + size <= |words| && 0 < size && AllNonEmpty(words)
  {
    Replaces(BestMatch(Chunk(words, i, size), vocab), threshold)
  }

  lemma {:induction false} ScanWindowsUnchanged(text: string, words: seq<string>, size: nat, i: nat,
                                                vocab: seq<string>, threshold: real)
    requires 1 <= size <= 3 && AllNonEmpty(words)
    requires NoWindowMatches(words, vocab, threshold)
    ensures ScanWindows(text, words, size, i, vocab, threshold) == text
    decreases |words| - i
  {
    if i + size <= |words| {
      assert !WindowMatches(words, i, size, vocab, threshold);
      ScanWindowsUnchanged(text, words, size, i + 1, vocab, threshold);
    }
  }

  lemma {:induction false} ScanSizesUnchanged(text: string, words: seq<string>, size: nat,
                                              vocab: seq<string>, threshold: real)
    requires size <= 3 && AllNonEmpty(words)
    requires NoWindowMatches(words, vocab, threshold)
    ensures ScanSizes(text, words, size, vocab, threshold) == text
    decreases size
  {
    if size > 0 {
      var once := ScanWindows(text, words, size, 0, vocab, threshold);
      ScanWindowsUnchanged(text, words, size, 0, vocab, threshold);
      ScanSizesUnchanged(text, words, size - 1, vocab, threshold);
      assert ScanSizes(text, words, size, vocab, threshold) == ScanSizes(once, words, size - 1, vocab, threshold);
    }
  }

  /** When no window reaches the threshold, the result is just the lower-cased input. */
  lemma SanitizeWithoutMatch(text: string, vocab: seq<string>, threshold: real)
    requires NoWindowMatches(SplitWhitespace(ToLower(text)), vocab, threshold)
    ensures SanitizeWith(text, vocab, threshold) == ToLower(text)
  {
    ScanSizesUnchanged(ToLower(text), SplitWhitespace(ToLower(text)), 3, vocab, threshold);
  }

  /** With an empty vocabulary the result is the lower-cased input, whatever the threshold. */
  lemma SanitizeEmptyVocabulary(text: string, threshold: real)
    ensures SanitizeWith(text, [], threshold) == ToLower(text)
  {
    SanitizeWithoutMatch(text, [], threshold);
  }

  /** A window either leaves the text alone, or replaces every occurrence of the chunk
      by the first vocabulary entry of maximal score, and that score meets the threshold. */
  lemma StepReplacesByBest(text: string, chunk: string, vocab: seq<string>, threshold: real)
    requires chunk != []
    ensures || Step(text, chunk, vocab, threshold) == text
            || exists k :: FirstMaximum(DiceScores(chunk, vocab), k) && Dice(chunk, vocab[k]) >= threshold
                         && Step(text, chunk, vocab, threshold) == Replace(text, chunk, vocab[k])
  {
    BestOfIsFirstMaximum(vocab, DiceScores(chunk, vocab));
  }

  /** Conversely, a window whose first entry of maximal score is non-empty, scores above
      zero and meets the threshold is replaced by that entry. A score of 0.0 never wins,
      since the scan starts from 0.0 and needs a strictly greater score. */
  lemma StepReplacesStrongMatch(text: string, chunk: string, vocab: seq<string>, threshold: real, k: int)
    requires chunk != []
    requires FirstMaximum(DiceScores(chunk, vocab), k) && Dice(chunk, vocab[k]) > 0.0
    requires Dice(chunk, vocab[k]) >= threshold && vocab[k] != ""
    ensures Step(text, chunk, vocab, threshold) == Replace(text, chunk, vocab[k])
  {
    var scores := DiceScores(chunk, vocab);
    var m := BestOf(vocab, scores);
    BestOfIsFirstMaximum(vocab, scores);
    assert m.score >= scores[k] > 0.0;
    var k' :| FirstMaximum(scores, k') && vocab[k'] == m.best.value && scores[k'] == m.score;
    FirstMaximumUnique(scores, k, k');
    assert Replaces(m, threshold);
  }

  /** Sanitizing is not idempotent on input the vocabulary already covers: the phrase
      "abcd e" is rewritten to "abcd e e", because its one-word window "abcd" scores
      2·2/(2+3) = 0.8 against the two-word entry, and `str.replace` then fires inside
      the phrase. */
  lemma VocabularyPhraseRewritten()
    ensures SanitizeWith("abcd e", ["abcd e"], DefaultThreshold) == "abcd e e"
  {
    var vocab, words := ["abcd e"], ["abcd", "e"];
    PhraseLower();
    PhraseWords();
    assert SanitizeWith("abcd e", vocab, DefaultThreshold) == ScanSizes("abcd e", words, 3, vocab, DefaultThreshold);
    ScanPhrase();
    assert ScanWindows("abcd e", words, 3, 0, vocab, DefaultThreshold) == "abcd e";
    assert ScanSizes("abcd e", words, 3, vocab, DefaultThreshold) == ScanSizes("abcd e", words, 2, vocab, DefaultThreshold);
    assert ScanSizes("abcd e", words, 2, vocab, DefaultThreshold) == ScanSizes("abcd e", words, 1, vocab, DefaultThreshold);
    assert ScanSizes("abcd e", words, 1, vocab, DefaultThreshold) == ScanSizes("abcd e e", words, 0, vocab, DefaultThreshold);
  }

  /** The windows of two words leave the phrase alone; those of one word rewrite it. */
  lemma ScanPhrase()
    ensures AllNonEmpty(["abcd", "e"])
    ensures ScanWindows("abcd e", ["abcd", "e"], 2, 0, ["abcd e"], DefaultThreshold) == "abcd e"
    ensures ScanWindows("abcd e", ["abcd", "e"], 1, 0, ["abcd e"], DefaultThreshold) == "abcd e e"
  {
    ScanPairs();
    ScanSingles();
  }

  lemma ScanPairs()
    ensures AllNonEmpty(["abcd", "e"])
    ensures ScanWindows("abcd e", ["abcd", "e"], 2, 0, ["abcd e"], DefaultThreshold) == "abcd e"
  {
    PhraseChunks();
    StepWholePhrase("abcd e");
    var text := Step("abcd e", Chunk(["abcd", "e"], 0, 2), ["abcd e"], DefaultThreshold);
    assert text == "abcd e";
    assert ScanWindows(text, ["abcd", "e"], 2, 1, ["abcd e"], DefaultThreshold) == text;
  }

  lemma ScanSingles()
    ensures AllNonEmpty(["abcd", "e"])
    ensures ScanWindows("abcd e", ["abcd", "e"], 1, 0, ["abcd e"], DefaultThreshold) == "abcd e e"
  {
    PhraseChunks();
    StepFirstWord();
    StepLastWord();
    var words, vocab := ["abcd", "e"], ["abcd e"];
    var once := Step("abcd e", Chunk(words, 0, 1), vocab, DefaultThreshold);
    assert once == "abcd e e";
    var twice := Step(once, Chunk(words, 1, 1), vocab, DefaultThreshold);
    assert twice == "abcd e e";
    assert ScanWindows(twice, words, 1, 2, vocab, DefaultThreshold) == twice;
    assert ScanWindows(once, words, 1, 1, vocab, DefaultThreshold) == ScanWindows(twice, words, 1, 2, vocab, DefaultThreshold);
  }

  lemma PhraseChunks()
    ensures AllNonEmpty(["abcd", "e"])
    ensures Chunk(["abcd", "e"], 0, 2) == "abcd e"
    ensures Chunk(["abcd", "e"], 0, 1) == "abcd"
    ensures Chunk(["abcd", "e"], 1, 1) == "e"
  {
    var words := ["abcd", "e"];
    assert AllNonEmpty(words);
    assert words[0..2] == words && words[1..] == ["e"];
    assert words[0..1] == ["abcd"];
    assert words[1..2] == ["e"];
  }

  lemma PhraseLower()
    ensures ToLower("abcd e") == "abcd e"
  {
    forall i | 0 <= i < 6 ensures ToLower("abcd e")[i] == "abcd e"[i] { }
  }

  lemma PhraseWords()
    ensures SplitWhitespace("abcd e") == ["abcd", "e"]
  {
    var s := "abcd e";
    assert !IsSpace(s[0]);
    FirstWord();
    assert s[4..] == " e";
    LastWord();
  }

  lemma FirstWord()
    ensures TakeWord("abcd e") == "abcd"
  {
    var s := "abcd e";
    var w := TakeWord(s);
    assert IsSpace(s[4]);
    assert !IsSpace(s[0]) && !IsSpace(s[1]) && !IsSpace(s[2]) && !IsSpace(s[3]);
    assert |w| == 4;
    assert s[..4] == "abcd";
  }

  lemma LastWord()
    ensures SplitWhitespace(" e") == ["e"]
  {
    LastWordStripped();
    LastWordTaken();
    assert SplitWhitespace("e"[1..]) == [];
  }

  lemma LastWordStripped()
    ensures LStripWhere(" e", IsSpace) == "e"
  {
    var s := " e";
    assert IsSpace(s[0]) && s[1..] == "e" && !IsSpace("e"[0]);
  }

  lemma LastWordTaken()
    ensures TakeWord("e") == "e"
  {
    var s := "e";
    assert !IsSpace(s[0]) && s[1..] == [];
  }

  lemma TrigramTextPhrase()
    ensures TrigramText("abcd e") == "abcde"
    ensures TrigramText("abcd") == "abcd"
    ensures TrigramText("e") == "e"
  {
    PhraseLower();
    assert ToLower("abcd") == "abcd";
    assert ToLower("e") == "e";
    assert "abcd e" == "abcd" + (" " + "e");
    ReplaceCharAppend("abcd", " " + "e", ' ', "");
    ReplaceCharAppend(" ", "e", ' ', "");
    ReplaceCharAbsent("abcd", ' ', "");
    ReplaceCharAbsent("e", ' ', "");
    assert Replace(" ", " ", "") == "";
  }

  lemma PhraseTrigrams()
    ensures Trigrams("abcd e") == {"abc", "bcd", "cde"}
    ensures Trigrams("abcd") == {"abc", "bcd"}
    ensures Trigrams("e") == {}
  {
    TrigramTextPhrase();
    TrigramsFive();
    TrigramsFour();
  }

  lemma TrigramsFive()
    ensures TrigramSet("abcde") == {"abc", "bcd", "cde"}
  {
    TrigramsFour();
    assert "abcde"[..3] == "abc";
    assert "abcde"[1..] == "bcde";
    TrigramsTail();
  }

  lemma TrigramsTail()
    ensures TrigramSet("bcde") == {"bcd", "cde"}
  {
    assert "bcde"[..3] == "bcd";
    assert "bcde"[1..] == "cde";
    assert "cde"[..3] == "cde";
    assert TrigramSet("cde"[1..]) == {};
  }

  lemma TrigramsFour()
    ensures TrigramSet("abcd") == {"abc", "bcd"}
  {
    assert "abcd"[..3] == "abc";
    assert "abcd"[1..] == "bcd";
    assert "bcd"[..3] == "bcd";
    assert TrigramSet("bcd"[1..]) == {};
  }

  lemma PhraseDice()
    ensures Dice("abcd e", "abcd e") == 1.0
    ensures Dice("abcd", "abcd e") == 0.8
    ensures Dice("e", "abcd e") == 0.0
  {
    DicePhraseSelf();
    DiceFirstWord();
    DiceLastWord();
  }

  lemma DicePhraseSelf()
    ensures Dice("abcd e", "abcd e") == 1.0
  {
    TrigramTextPhrase();
    DiceSelf("abcd e");
  }

  lemma DiceFirstWord()
    ensures Dice("abcd", "abcd e") == 0.8
  {
    PhraseTrigrams();
    TrigramCounts();
    DiceOfCounts(Trigrams("abcd"), Trigrams("abcd e"));
  }

  lemma DiceOfCounts(t1: set<string>, t2: set<string>)
    requires |t1| == 2 && |t2| == 3 && |t1 * t2| == 2
    ensures (2 * |t1 * t2|) as real / (|t1| + |t2|) as real == 0.8
  {
  }

  lemma DiceLastWord()
    ensures Dice("e", "abcd e") == 0.0
  {
    PhraseTrigrams();
  }

  lemma TrigramCounts()
    ensures |{"abc", "bcd"}| == 2 && |{"abc", "bcd", "cde"}| == 3
    ensures {"abc", "bcd"} * {"abc", "bcd", "cde"} == {"abc", "bcd"}
  {
    assert "abc"[0] == 'a' && "bcd"[0] == 'b' && "cde"[0] == 'c';
  }

  /** The best match of a window against a one-entry vocabulary. */
  lemma BestOfSingle(entry: string, score: real)
    ensures BestOf([entry], [score]) == if score > 0.0 then Match(Some(entry), score) else Match(None, 0.0)
  {
    assert [entry][..0] == [] && [score][..0] == [];
  }

  lemma StepWholePhrase(text: string)
    ensures Step(text, "abcd e", ["abcd e"], DefaultThreshold) == text
  {
    WholePhraseMatch();
    ReplaceSelf(text, "abcd e");
  }

  lemma WholePhraseMatch()
    ensures BestMatch("abcd e", ["abcd e"]) == Match(Some("abcd e"), 1.0)
  {
    PhraseDice();
    assert DiceScores("abcd e", ["abcd e"]) == [1.0];
    BestOfSingle("abcd e", 1.0);
  }

  lemma StepFirstWord()
    ensures Step("abcd e", "abcd", ["abcd e"], DefaultThreshold) == "abcd e e"
  {
    FirstWordMatch();
    FirstWordReplaced();
  }

  lemma FirstWordMatch()
    ensures BestMatch("abcd", ["abcd e"]) == Match(Some("abcd e"), 0.8)
  {
    PhraseDice();
    assert DiceScores("abcd", ["abcd e"]) == [0.8];
    BestOfSingle("abcd e", 0.8);
  }

  lemma FirstWordReplaced()
    ensures Replace("abcd e", "abcd", "abcd e") == "abcd e e"
  {
    var s := "abcd e";
    assert s[..4] == "abcd" && s[4..] == " e";
    assert Replace(" e", "abcd", "abcd e") == " e";
    assert Replace(s, "abcd", "abcd e") == "abcd e" + " e";
  }

  lemma StepLastWord()
    ensures Step("abcd e e", "e", ["abcd e"], DefaultThreshold) == "abcd e e"
  {
    LastWordMatch();
  }

  lemma LastWordMatch()
    ensures BestMatch("e", ["abcd e"]) == Match(None, 0.0)
  {
    PhraseDice();
    assert DiceScores("e", ["abcd e"]) == [0.0];
    BestOfSingle("abcd e", 0.0);
  }

  /** The scan extended by one more entry. */
  lemma BestOfSnoc(vocab: seq<string>, scores: seq<real>, j: nat)
    requires |scores| == |vocab| && j < |vocab|
    ensures BestOf(vocab[..j + 1], scores[..j + 1])
         == var m := BestOf(vocab[..j], scores[..j]);
            if scores[j] > m.score then Match(Some(vocab[j]), scores[j]) else m
  {
    assert vocab[..j + 1][..j] == vocab[..j];
    assert scores[..j + 1][..j] == scores[..j];
  }

  /** The vocabulary loop of `sanitize` for one chunk: the entry with the strictly
      highest score so far is kept. */
  method ScanVocabulary(phraseChunk: string, vocab: seq<string>) returns (bestMatch: Option<string>, highestScore: real)
    ensures Match(bestMatch, highestScore) == BestMatch(phraseChunk, vocab)
  {
    bestMatch := None;
    highestScore := 0.0;
    ghost var scores := DiceScores(phraseChunk, vocab);
    for j := 0 to |vocab|
      invariant Match(bestMatch, highestScore) == BestOf(vocab[..j], scores[..j])
    {
      BestOfSnoc(vocab, scores, j);
      var score := Dice(phraseChunk, vocab[j]);
      assert score == scores[j];
      if score > highestScore {
        highestScore := score;
        bestMatch := Some(vocab[j]);
      }
    }
    assert vocab[..|vocab|] == vocab && scores[..|scores|] == scores;
  }

  class NgramSanitizer {
    const threshold: real
    var knownVocabulary: set<string>

    constructor(threshold: real)
      ensures this.threshold == threshold && knownVocabulary == {}
    {
      this.threshold := threshold;
      knownVocabulary := {};
    }

    /** `update_vocabulary`: the lower-cased form of every word longer than three
        characters joins the vocabulary; nothing is removed. */
    method UpdateVocabulary(words: seq<string>)
      modifies this
      ensures knownVocabulary == old(knownVocabulary) + set w | w in words && |w| > 3 :: ToLower(w)
    {
      for i := 0 to |words|
        invariant knownVocabulary == old(knownVocabulary) + set w | w in words[..i] && |w| > 3 :: ToLower(w)
      {
        assert words[..i + 1] == words[..i] + [words[i]];
        if |words[i]| > 3 {
          knownVocabulary := knownVocabulary + {ToLower(words[i])};
        }
      }
      assert words[..|words|] == words;
    }

    /** `sanitize`, with the set's iteration order given as `vocab`. */
    method Sanitize(text: string, vocab: seq<string>) returns (sanitized: string)
      requires Enumerates(vocab, knownVocabulary)
      ensures sanitized == SanitizeWith(text, vocab, threshold)
    {
      sanitized := ToLower(text);
      var words := SplitWhitespace(sanitized);
      var windowSize := 3;
      while windowSize > 0
        invariant 0 <= windowSize <= 3
        invariant ScanSizes(sanitized, words, windowSize, vocab, threshold) == SanitizeWith(text, vocab, threshold)
      {
        sanitized := ScanWindowSize(sanitized, words, windowSize, vocab);
        windowSize := windowSize - 1;
      }
    }

    /** The inner loop of `sanitize`: every window of one size, left to right, each
        rewriting the text when its best match is strong enough. */
    method ScanWindowSize(text: string, words: seq<string>, windowSize: nat, vocab: seq<string>)
      returns (sanitized: string)
      requires 0 < windowSize && AllNonEmpty(words)
      ensures sanitized == ScanWindows(text, words, windowSize, 0, vocab, threshold)
    {
      sanitized := text;
      var i := 0;
      while i + windowSize <= |words|
        invariant ScanWindows(sanitized, words, windowSize, i, vocab, threshold)
               == ScanWindows(text, words, windowSize, 0, vocab, threshold)
        decreases |words| - i
      {
        var phraseChunk := Chunk(words, i, windowSize);
        var bestMatch, highestScore := ScanVocabulary(phraseChunk, vocab);
        ghost var before := sanitized;
        if highestScore >= threshold && bestMatch.Some? && bestMatch.value != "" {
          sanitized := Replace(sanitized, phraseChunk, bestMatch.value);
        }
        assert sanitized == Step(before, phraseChunk, vocab, threshold);
        i := i + 1;
      }
    }
  }
}
