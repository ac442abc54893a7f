/** The text metrics of `TextAnalyzer`: words as the matches of `\b\w+\b`,
    sentences as the pieces of `re.split(r'[.!?]+', ...)`, paragraphs as
    the pieces of `split('\n\n')`, the syllable estimate, the repeated-word
    ranking, the long-sentence finder, the consistency checks, the
    readability classifiers and the style rules.

    Characters are ASCII: `\w` is `[A-Za-z0-9_]`, so the matches of
    `\b\w+\b` are exactly the maximal runs of word characters. */
module TextProcessing {
  import opened Wrappers
  import opened Strings
  import opened Sequences
  import Sorting

  // ---------------------------------------------------------------------
  // Concatenation
  // ---------------------------------------------------------------------

  /** `''.join(parts)`. */
  function Concat(parts: seq<string>): string {
    if parts == [] then "" else parts[0] + Concat(parts[1..])
  }

  // ---------------------------------------------------------------------
  // Words: `re.findall(r'\b\w+\b', text)`
  // ---------------------------------------------------------------------

  predicate IsWord(w: string) {
    w != [] && forall k :: 0 <= k < |w| ==> IsWordChar(w[k])
  }

  /** End of the run of word characters that starts at `i`. */
  function RunEnd(s: string, i: nat): (j: nat)
    requires i <= |s|
    ensures i <= j <= |s|
    ensures forall k :: i <= k < j ==> IsWordChar(s[k])
    ensures j == |s| || !IsWordChar(s[j])
    decreases |s| - i
  {
    if i < |s| && IsWordChar(s[i]) then RunEnd(s, i + 1) else i
  }

  /** The maximal word-character runs of `s[i..]`, where `i` is `0` or
      follows a non-word character. */
  function WordsFrom(s: string, i: nat): (r: seq<string>)
    requires i <= |s|
    ensures forall k :: 0 <= k < |r| ==> IsWord(r[k])
    decreases |s| - i
  {
    if i == |s| then []
    else if !IsWordChar(s[i]) then WordsFrom(s, i + 1)
    else
      var j := RunEnd(s, i);
      [s[i..j]] + WordsFrom(s, j)
  }

  /** `re.findall(r'\b\w+\b', s)`. */
  function Words(s: string): seq<string> {
    WordsFrom(s, 0)
  }

  /** The words hold every word character of the text and nothing else,
      in order. */
  lemma {:induction false} WordsFromCoverText(s: string, i: nat)
    requires i <= |s|
    ensures Concat(WordsFrom(s, i)) == Filter(s[i..], IsWordChar)
    decreases |s| - i
  {
    if i < |s| {
      if !IsWordChar(s[i]) {
        WordsFromCoverText(s, i + 1);
        assert s[i..] == [s[i]] + s[i + 1..];
      } else {
        var j := RunEnd(s, i);
        WordsFromCoverText(s, j);
        assert s[i..] == s[i..j] + s[j..];
        FilterConcat(s[i..j], s[j..], IsWordChar);
        FilterAll(s[i..j], IsWordChar);
      }
    }
  }

  lemma WordsCoverText(s: string)
    ensures Concat(Words(s)) == Filter(s, IsWordChar)
  {
    WordsFromCoverText(s, 0);
    assert s[0..] == s;
  }

  /** `_count_words`. */
  function CountWords(text: string): nat {
    |Words(text)|
  }

  /** `_extract_words`: the words of the lowered text. */
  function ExtractWords(text: string): seq<string> {
    Words(Lower(text))
  }

  predicate IsLowercase(w: string) {
    forall k :: 0 <= k < |w| ==> !IsUpper(w[k])
  }

  function LowerAll(ws: seq<string>): (r: seq<string>)
    ensures |r| == |ws|
  {
    seq(|ws|, k requires 0 <= k < |ws| => Lower(ws[k]))
  }

  lemma {:induction false} RunEndLower(s: string, i: nat)
    requires i <= |s|
    ensures RunEnd(Lower(s), i) == RunEnd(s, i)
    decreases |s| - i
  {
    if i < |s| {
      RunEndLower(s, i + 1);
    }
  }

  /** Lowering the text lowers each word and changes no word boundary. */
  lemma {:induction false} WordsFromLower(s: string, i: nat)
    requires i <= |s|
    ensures WordsFrom(Lower(s), i) == LowerAll(WordsFrom(s, i))
    decreases |s| - i
  {
    if i < |s| {
      if !IsWordChar(s[i]) {
        WordsFromLower(s, i + 1);
      } else {
        var j := RunEnd(s, i);
        RunEndLower(s, i);
        WordsFromLower(s, j);
        assert Lower(s)[i..j] == Lower(s[i..j]);
      }
    }
  }

  /** `_count_words(text) == len(_extract_words(text))`, and every extracted
      word is lowercase. */
  lemma ExtractWordsSpec(text: string)
    ensures |ExtractWords(text)| == CountWords(text)
    ensures forall k :: 0 <= k < |ExtractWords(text)| ==> IsLowercase(ExtractWords(text)[k])
    ensures forall k :: 0 <= k < |ExtractWords(text)| ==> ExtractWords(text)[k] == Lower(Words(text)[k])
  {
    WordsFromLower(text, 0);
  }

  // ---------------------------------------------------------------------
  // Sentences: `re.split(r'[.!?]+', text)`
  // ---------------------------------------------------------------------

  predicate IsTerminator(c: char) {
    c == '.' || c == '!' || c == '?'
  }

  predicate NotTerminator(c: char) {
    !IsTerminator(c)
  }

  predicate NoTerminator(s: string) {
    forall k :: 0 <= k < |s| ==> !IsTerminator(s[k])
  }

  /** The first terminator at or after `i`, or `|s|`. */
  function NextTerminator(s: string, i: nat): (k: nat)
    requires i <= |s|
    ensures i <= k <= |s|
    ensures forall m :: i <= m < k ==> !IsTerminator(s[m])
    ensures k == |s| || IsTerminator(s[k])
    decreases |s| - i
  {
    if i == |s| || IsTerminator(s[i]) then i else NextTerminator(s, i + 1)
  }

  /** End of the run of terminators that starts at `i`. */
  function TerminatorRunEnd(s: string, i: nat): (j: nat)
    requires i <= |s|
    ensures i <= j <= |s|
    ensures forall m :: i <= m < j ==> IsTerminator(s[m])
    ensures i < |s| && IsTerminator(s[i]) ==> i < j
    decreases |s| - i
  {
    if i < |s| && IsTerminator(s[i]) then TerminatorRunEnd(s, i + 1) else i
  }

  /** The pieces of `s[i..]` between maximal runs of terminators, with the
      empty pieces before a leading run and after a trailing one. */
  function SentencePiecesFrom(s: string, i: nat): (r: seq<string>)
    requires i <= |s|
    ensures |r| >= 1
    ensures forall k :: 0 <= k < |r| ==> NoTerminator(r[k])
    decreases |s| - i
  {
    var k := NextTerminator(s, i);
    if k == |s| then [s[i..]]
    else [s[i..k]] + SentencePiecesFrom(s, TerminatorRunEnd(s, k))
  }

  /** `re.split(r'[.!?]+', text)`. */
  function SentencePieces(text: string): seq<string> {
    SentencePiecesFrom(text, 0)
  }

  lemma ConcatCons(x: string, rest: seq<string>)
    ensures Concat([x] + rest) == x + Concat(rest)
  {
    assert ([x] + rest)[1..] == rest;
  }

  /** Filtering a terminator-free piece, a run of terminators and the rest. */
  lemma FilterPieceRunRest(a: string, b: string, c: string)
    requires NoTerminator(a)
    requires forall m :: 0 <= m < |b| ==> IsTerminator(b[m])
    ensures Filter(a + (b + c), NotTerminator) == a + Filter(c, NotTerminator)
  {
    assert forall m :: 0 <= m < |a| ==> NotTerminator(a[m]);
    FilterAll(a, NotTerminator);
    assert forall m :: 0 <= m < |b| ==> !NotTerminator(b[m]);
    FilterNone(b, NotTerminator);
    FilterConcat(b, c, NotTerminator);
    assert Filter(b + c, NotTerminator) == Filter(c, NotTerminator);
    FilterConcat(a, b + c, NotTerminator);
  }

  /** Splitting drops the terminators and nothing else. */
  lemma {:induction false} SentencePiecesFromCover(s: string, i: nat)
    requires i <= |s|
    ensures Concat(SentencePiecesFrom(s, i)) == Filter(s[i..], NotTerminator)
    decreases |s| - i
  {
    var k := NextTerminator(s, i);
    if k == |s| {
      var a := s[i..];
      assert Filter(a, NotTerminator) == a by {
        assert forall m :: 0 <= m < |a| ==> NotTerminator(a[m]);
        FilterAll(a, NotTerminator);
      }
      ConcatCons(a, []);
    } else {
      var j := TerminatorRunEnd(s, k);
      var rest := SentencePiecesFrom(s, j);
      assert Concat(SentencePiecesFrom(s, i)) == s[i..k] + Concat(rest) by {
        assert SentencePiecesFrom(s, i) == [s[i..k]] + rest;
        ConcatCons(s[i..k], rest);
      }
      assert Filter(s[i..], NotTerminator) == s[i..k] + Filter(s[j..], NotTerminator) by {
        assert s[i..] == s[i..k] + (s[k..j] + s[j..]);
        FilterPieceRunRest(s[i..k], s[k..j], s[j..]);
      }
      SentencePiecesFromCover(s, j);
    }
  }

  lemma SentencePiecesCover(text: string)
    ensures Concat(SentencePieces(text)) == Filter(text, NotTerminator)
  {
    SentencePiecesFromCover(text, 0);
    assert text[0..] == text;
  }

  /** `len([p.strip() for p in pieces if p.strip()])`. */
  function NonBlankCount(pieces: seq<string>): (n: nat)
    ensures n <= |pieces|
  {
    if pieces == [] then 0
    else (if Strip(pieces[0]) != [] then 1 else 0) + NonBlankCount(pieces[1..])
  }

  /** `_count_sentences`: the non-blank pieces, at least 1. */
  function CountSentences(text: string): (n: nat)
    ensures 1 <= n <= |SentencePieces(text)|
  {
    var c := NonBlankCount(SentencePieces(text));
    if c < 1 then 1 else c
  }

  /** Text without a terminator is one sentence, whatever else it holds. */
  lemma NoTerminatorOneSentence(text: string)
    requires NoTerminator(text)
    ensures SentencePieces(text) == [text]
    ensures CountSentences(text) == 1
  {
    assert NextTerminator(text, 0) == |text|;
    assert text[0..] == text;
  }

  // ---------------------------------------------------------------------
  // Paragraphs: `text.split('\n\n')`
  // ---------------------------------------------------------------------

  /** A blank line (`"\n\n"`) starts at `m`. */
  predicate BreakAt(s: string, m: int) {
    0 <= m && m + 1 < |s| && s[m] == '\n' && s[m + 1] == '\n'
  }

  predicate NoBreak(s: string) {
    forall m :: 0 <= m < |s| ==> !BreakAt(s, m)
  }

  /** The first blank line at or after `i`, or `|s|`. */
  function NextBreak(s: string, i: nat): (k: nat)
    requires i <= |s|
    ensures i <= k <= |s|
    ensures forall m :: i <= m < k ==> !BreakAt(s, m)
    ensures k == |s| || BreakAt(s, k)
    decreases |s| - i
  {
    if i == |s| || BreakAt(s, i) then i else NextBreak(s, i + 1)
  }

  /** The pieces of `s[i..]` between non-overlapping `"\n\n"`, left to right. */
  function ParagraphPiecesFrom(s: string, i: nat): (r: seq<string>)
    requires i <= |s|
    ensures |r| >= 1
    ensures forall k :: 0 <= k < |r| ==> NoBreak(r[k])
    decreases |s| - i
  {
    var k := NextBreak(s, i);
    if k == |s| then
      assert NoBreak(s[i..]) by {
        forall m | 0 <= m < |s[i..]| ensures !BreakAt(s[i..], m) {
          assert !BreakAt(s, i + m);
        }
      }
      [s[i..]]
    else
      assert NoBreak(s[i..k]) by {
        forall m | 0 <= m < |s[i..k]| ensures !BreakAt(s[i..k], m) {
          assert !BreakAt(s, i + m);
        }
      }
      [s[i..k]] + ParagraphPiecesFrom(s, k + 2)
  }

  /** `text.split('\n\n')`. */
  function ParagraphPieces(text: string): seq<string> {
    ParagraphPiecesFrom(text, 0)
  }

  /** Joining the pieces with `"\n\n"` gives the text back. */
  lemma {:induction false} ParagraphPiecesFromJoin(s: string, i: nat)
    requires i <= |s|
    ensures Join(ParagraphPiecesFrom(s, i), "\n\n") == s[i..]
    decreases |s| - i
  {
    var k := NextBreak(s, i);
    if k < |s| {
      var rest := ParagraphPiecesFrom(s, k + 2);
      assert Join(ParagraphPiecesFrom(s, i), "\n\n") == s[i..k] + "\n\n" + Join(rest, "\n\n") by {
        assert ParagraphPiecesFrom(s, i) == [s[i..k]] + rest;
        assert ([s[i..k]] + rest)[1..] == rest;
      }
      assert s[i..] == s[i..k] + "\n\n" + s[k + 2..] by {
        assert s[k..k + 2] == "\n\n";
        assert s[i..] == s[i..k] + s[k..k + 2] + s[k + 2..];
      }
      ParagraphPiecesFromJoin(s, k + 2);
    } else {
      assert ParagraphPiecesFrom(s, i) == [s[i..]];
    }
  }

  lemma ParagraphPiecesJoin(text: string)
    ensures Join(ParagraphPieces(text), "\n\n") == text
  {
    ParagraphPiecesFromJoin(text, 0);
    assert text[0..] == text;
  }

  /** `_count_paragraphs`: the non-blank pieces, at least 1. */
  function CountParagraphs(text: string): (n: nat)
    ensures 1 <= n <= |ParagraphPieces(text)|
  {
    var c := NonBlankCount(ParagraphPieces(text));
    if c < 1 then 1 else c
  }

  /** Text without a blank line is one paragraph. */
  lemma NoBreakOneParagraph(text: string)
    requires NoBreak(text)
    ensures ParagraphPieces(text) == [text]
    ensures CountParagraphs(text) == 1
  {
    assert NextBreak(text, 0) == |text|;
    assert text[0..] == text;
  }

  // ---------------------------------------------------------------------
  // Syllables
  // ---------------------------------------------------------------------

  predicate IsVowel(c: char) {
    c == 'a' || c == 'e' || c == 'i' || c == 'o' || c == 'u' || c == 'y'
  }

  /** Number of maximal runs of vowels in `w`. */
  function VowelGroups(w: string): nat {
    if w == [] then 0
    else
      var last := w[|w| - 1];
      VowelGroups(w[..|w| - 1])
        + (if IsVowel(last) && (|w| == 1 || !IsVowel(w[|w| - 2])) then 1 else 0)
  }

  /** Vowel groups are separated by consonants, so there are at most
      `(|w| + 1) / 2` of them. */
  lemma {:induction false} VowelGroupsBound(w: string)
    ensures 2 * VowelGroups(w) <= |w| + (if w != [] && IsVowel(w[|w| - 1]) then 1 else 0)
  {
    if w != [] {
      var init := w[..|w| - 1];
      VowelGroupsBound(init);
      if |w| >= 2 {
        assert init[|init| - 1] == w[|w| - 2];
      }
    }
  }

  /** One more character adds a group exactly when it is a vowel after a
      non-vowel (or first). */
  lemma VowelGroupsStep(w: string, i: nat)
    requires i < |w|
    ensures VowelGroups(w[..i + 1])
            == VowelGroups(w[..i]) + (if IsVowel(w[i]) && (i == 0 || !IsVowel(w[i - 1])) then 1 else 0)
  {
    var prefix := w[..i + 1];
    assert prefix[..i] == w[..i];
  }

  /** The word `_count_syllables` counts in: lowered and stripped, without a
      final `e` when longer than 3 characters. */
  function SyllableStem(word: string): string {
    var w := Strip(Lower(word));
    if |w| > 3 && w[|w| - 1] == 'e' then w[..|w| - 1] else w
  }

  /** `_count_syllables` as a function of the word: a word of at most three
      characters (after lowering and stripping) counts one syllable; a longer
      one counts the vowel groups of its stem, without one final `e`, and at
      least one. */
  function Syllables(word: string): (n: nat)
    ensures n >= 1
  {
    var w := Strip(Lower(word));
    if |w| <= 3 then 1
    else
      var g := VowelGroups(SyllableStem(word));
      if g < 1 then 1 else g
  }

  /** `_count_syllables`: short words count one; longer ones lose a final
      `e` and count their vowel groups, at least one. */
  method CountSyllables(word: string) returns (n: nat)
    ensures n == Syllables(word)
  {
    var w := Strip(Lower(word));
    if |w| <= 3 {
      return 1;
    }
    if w[|w| - 1] == 'e' {
      w := w[..|w| - 1];
    }
    assert w == SyllableStem(word);
    var count := CountVowelGroups(w);
    n := if count < 1 then 1 else count;
  }

  /** The counting loop of `_count_syllables`: a counter and whether the
      previous character was a vowel. */
  method CountVowelGroups(w: string) returns (count: nat)
    ensures count == VowelGroups(w)
  {
    count := 0;
    var previousWasVowel := false;
    var i := 0;
    while i < |w|
      invariant 0 <= i <= |w|
      invariant count == VowelGroups(w[..i])
      invariant previousWasVowel == (i > 0 && IsVowel(w[i - 1]))
    {
      VowelGroupsStep(w, i);
      var isVowel := IsVowel(w[i]);
      if isVowel && !previousWasVowel {
        count := count + 1;
      }
      previousWasVowel := isVowel;
      i := i + 1;
    }
    assert w[..|w|] == w;
  }

  /** A word counts at most about half its length in syllables. */
  lemma SyllablesSpec(word: string)
    ensures 2 * Syllables(word) <= |Strip(Lower(word))| + 1 || Syllables(word) == 1
  {
    VowelGroupsBound(SyllableStem(word));
  }

  /** `_count_total_syllables`. */
  function TotalSyllables(words: seq<string>): (n: nat)
    ensures n >= |words|
  {
    if words == [] then 0 else Syllables(words[0]) + TotalSyllables(words[1..])
  }

  // ---------------------------------------------------------------------
  // Repeated words
  // ---------------------------------------------------------------------

  const StopWords: set<string> := {
    "the", "be", "to", "of", "and", "a", "in", "that", "have", "i",
    "it", "for", "not", "on", "with", "he", "as", "you", "do", "at",
    "this", "but", "his", "by", "from", "they", "we", "say", "her", "she",
    "or", "an", "will", "my", "one", "all", "would", "there", "their"}

  /** A word `_find_repeated_words` keeps: not a stop word, longer than 3. */
  predicate Meaningful(w: string) {
    w !in StopWords && |w| > 3
  }

  function MeaningfulWords(words: seq<string>): (r: seq<string>)
    ensures forall k :: 0 <= k < |r| ==> Meaningful(r[k])
    ensures forall w :: multiset(r)[w] == if Meaningful(w) then multiset(words)[w] else 0
  {
    if words == [] then []
    else
      var init := words[..|words| - 1];
      var last := words[|words| - 1];
      assert words == init + [last];
      MeaningfulWords(init) + (if Meaningful(last) then [last] else [])
  }

  /** A word and its count. */
  type WordCount = (string, nat)

  /** `Counter(ws).items()`: each distinct word, in first-occurrence order,
      with its number of occurrences. */
  function CounterItems(ws: seq<string>): (r: seq<WordCount>)
    ensures |r| == |Uniq(ws)|
    ensures forall k :: 0 <= k < |r| ==> r[k] == (Uniq(ws)[k], multiset(ws)[Uniq(ws)[k]])
  {
    var u := Uniq(ws);
    seq(|u|, k requires 0 <= k < |u| => (u[k], multiset(ws)[u[k]]))
  }

  lemma CounterItemsDistinct(ws: seq<string>)
    ensures Distinct(CounterItems(ws))
  {
    var items := CounterItems(ws);
    forall i, j | 0 <= i < j < |items| ensures items[i] != items[j] {
      assert items[i].0 == Uniq(ws)[i] && items[j].0 == Uniq(ws)[j];
    }
  }

  /** The items whose count reaches `threshold`, in order. */
  function AtLeast(items: seq<WordCount>, threshold: int): (r: seq<WordCount>)
    ensures forall x :: x in r <==> x in items && x.1 >= threshold
    ensures Distinct(items) ==> Distinct(r)
  {
    if items == [] then []
    else
      var init := items[..|items| - 1];
      var last := items[|items| - 1];
      assert items == init + [last];
      AtLeast(init, threshold) + (if last.1 >= threshold then [last] else [])
  }

  /** The order of `sort(key=count, reverse=True)`: larger counts first. */
  predicate CountGe(a: WordCount, b: WordCount) {
    a.1 >= b.1
  }

  lemma CountGeIsTotalPreorder()
    ensures Sorting.TotalPreorder(CountGe)
  {
  }

  /** The counted items at or above the threshold, in counter order. */
  function Qualifying(words: seq<string>, threshold: int): seq<WordCount> {
    AtLeast(CounterItems(MeaningfulWords(words)), threshold)
  }

  /** The qualifying items, ranked by count. */
  function RankedWords(words: seq<string>, threshold: int): seq<WordCount> {
    Sorting.Sort(Qualifying(words, threshold), CountGe)
  }

  /** `_find_repeated_words`: the first 20 of the ranking. */
  function FindRepeatedWords(words: seq<string>, threshold: int := 3): (r: seq<WordCount>)
    ensures |r| <= 20
  {
    var ranked := RankedWords(words, threshold);
    if |ranked| <= 20 then ranked else ranked[..20]
  }

  /** A meaningful word paired with its exact number of occurrences, which
      reaches the threshold (and is positive). */
  predicate GoodEntry(x: WordCount, words: seq<string>, threshold: int) {
    Meaningful(x.0) && x.1 == multiset(words)[x.0] && x.1 >= threshold && x.1 >= 1
  }

  lemma QualifyingAreGood(words: seq<string>, threshold: int)
    ensures forall x :: x in Qualifying(words, threshold) ==> GoodEntry(x, words, threshold)
  {
    var mw := MeaningfulWords(words);
    var items := CounterItems(mw);
    forall x | x in Qualifying(words, threshold) ensures GoodEntry(x, words, threshold) {
      var m :| 0 <= m < |items| && items[m] == x;
      assert x.0 in mw;
      var q :| 0 <= q < |mw| && mw[q] == x.0;
    }
  }

  lemma QualifyingIsComplete(words: seq<string>, threshold: int, w: string)
    requires Meaningful(w) && multiset(words)[w] >= threshold && multiset(words)[w] >= 1
    ensures (w, multiset(words)[w]) in Qualifying(words, threshold)
  {
    var mw := MeaningfulWords(words);
    var items := CounterItems(mw);
    assert w in mw;
    var m :| 0 <= m < |Uniq(mw)| && Uniq(mw)[m] == w;
    assert items[m] == (w, multiset(words)[w]);
  }

  lemma RankedSorted(words: seq<string>, threshold: int)
    ensures Sorting.SortedBy(RankedWords(words, threshold), CountGe)
  {
    CountGeIsTotalPreorder();
    Sorting.SortSorted(Qualifying(words, threshold), CountGe);
  }

  lemma RankedComplete(words: seq<string>, threshold: int, w: string)
    requires Meaningful(w) && multiset(words)[w] >= threshold && multiset(words)[w] >= 1
    ensures (w, multiset(words)[w]) in RankedWords(words, threshold)
  {
    QualifyingIsComplete(words, threshold, w);
    assert (w, multiset(words)[w]) in multiset(Qualifying(words, threshold));
    assert (w, multiset(words)[w]) in multiset(RankedWords(words, threshold));
  }

  lemma RankedGood(words: seq<string>, threshold: int)
    ensures var ranked := RankedWords(words, threshold);
      forall k :: 0 <= k < |ranked| ==> GoodEntry(ranked[k], words, threshold)
  {
    var ranked := RankedWords(words, threshold);
    QualifyingAreGood(words, threshold);
    forall k | 0 <= k < |ranked| ensures GoodEntry(ranked[k], words, threshold) {
      assert ranked[k] in multiset(ranked);
    }
  }

  lemma RankedDistinct(words: seq<string>, threshold: int)
    ensures Distinct(RankedWords(words, threshold))
  {
    CounterItemsDistinct(MeaningfulWords(words));
    PermutationKeepsDistinct(Qualifying(words, threshold), RankedWords(words, threshold));
  }

  /** The ranking holds exactly the good entries, once each, non-increasing
      by count. */
  lemma RankedWordsSpec(words: seq<string>, threshold: int)
    ensures var ranked := RankedWords(words, threshold);
      && (forall k :: 0 <= k < |ranked| ==> GoodEntry(ranked[k], words, threshold))
      && Sorting.SortedBy(ranked, CountGe)
      && Distinct(ranked)
      && (forall w :: Meaningful(w) && multiset(words)[w] >= threshold && multiset(words)[w] >= 1 ==>
            (w, multiset(words)[w]) in ranked)
  {
    RankedGood(words, threshold);
    RankedSorted(words, threshold);
    RankedDistinct(words, threshold);
    forall w | Meaningful(w) && multiset(words)[w] >= threshold && multiset(words)[w] >= 1
      ensures (w, multiset(words)[w]) in RankedWords(words, threshold)
    {
      RankedComplete(words, threshold, w);
    }
  }

  /** `_find_repeated_words` keeps the head of the ranking. */
  lemma RepeatedIsPrefix(words: seq<string>, threshold: int)
    ensures var ranked, r := RankedWords(words, threshold), FindRepeatedWords(words, threshold);
      && |r| == (if |ranked| <= 20 then |ranked| else 20)
      && forall k :: 0 <= k < |r| ==> r[k] == ranked[k]
  {
  }

  /** The properties of `_find_repeated_words`: at most 20 entries, each a
      meaningful word with its exact count at or above the threshold,
      non-increasing by count, no word twice. */
  lemma FindRepeatedWordsSpec(words: seq<string>, threshold: int)
    ensures var r := FindRepeatedWords(words, threshold);
      && |r| <= 20
      && (forall k :: 0 <= k < |r| ==> GoodEntry(r[k], words, threshold))
      && (forall i, j :: 0 <= i < j < |r| ==> r[i].1 >= r[j].1 && r[i].0 != r[j].0)
  {
    var ranked := RankedWords(words, threshold);
    var r := FindRepeatedWords(words, threshold);
    RepeatedIsPrefix(words, threshold);
    RankedGood(words, threshold);
    assert forall k :: 0 <= k < |r| ==> GoodEntry(r[k], words, threshold) by {
      forall k | 0 <= k < |r| ensures GoodEntry(r[k], words, threshold) {
        assert r[k] == ranked[k];
      }
    }
    RankedSorted(words, threshold);
    RankedDistinct(words, threshold);
    forall i, j | 0 <= i < j < |r| ensures r[i].1 >= r[j].1 && r[i].0 != r[j].0 {
      assert r[i] == ranked[i] && r[j] == ranked[j];
      assert CountGe(ranked[i], ranked[j]);
      assert ranked[i] != ranked[j];
    }
  }

  /** A qualifying word is left out of `_find_repeated_words` only when 20
      entries of at least its count are listed. */
  lemma FindRepeatedWordsComplete(words: seq<string>, threshold: int, w: string)
    requires Meaningful(w) && multiset(words)[w] >= threshold && multiset(words)[w] >= 1
    requires forall k :: 0 <= k < |FindRepeatedWords(words, threshold)| ==> FindRepeatedWords(words, threshold)[k].0 != w
    ensures |FindRepeatedWords(words, threshold)| == 20
    ensures forall k :: 0 <= k < |FindRepeatedWords(words, threshold)| ==> FindRepeatedWords(words, threshold)[k].1 >= multiset(words)[w]
  {
    var ranked := RankedWords(words, threshold);
    var r := FindRepeatedWords(words, threshold);
    RepeatedIsPrefix(words, threshold);
    RankedComplete(words, threshold, w);
    var m :| 0 <= m < |ranked| && ranked[m] == (w, multiset(words)[w]);
    if m < |r| {
      assert false;
    }
    RankedSorted(words, threshold);
    forall k | 0 <= k < |r| ensures r[k].1 >= multiset(words)[w] {
      assert r[k] == ranked[k];
      assert CountGe(ranked[k], ranked[m]);
    }
  }

  // ---------------------------------------------------------------------
  // Long sentences
  // ---------------------------------------------------------------------

  /** One entry of `_find_long_sentences`. */
  datatype LongSentence = LongSentence(sentenceNumber: nat, wordCount: nat, text: string)

  /** The display text: the first 100 characters and `...` when longer. */
  function Display(sentence: string): string {
    if |sentence| > 100 then sentence[..100] + "..." else sentence
  }

  predicate EndsWithEllipsis(s: string) {
    |s| >= 3 && s[|s| - 3..] == "..."
  }

  /** A sentence holds no `.`, so its display text ends in `...` exactly
      when it was cut; it is never longer than 103 characters. */
  lemma EllipsisEndsWithTerminator(s: string)
    ensures EndsWithEllipsis(s) ==> IsTerminator(s[|s| - 1])
  {
    if EndsWithEllipsis(s) {
      assert s[|s| - 1] == s[|s| - 3..][2];
    }
  }

  lemma DisplaySpec(sentence: string)
    requires NoTerminator(sentence)
    ensures |Display(sentence)| <= 103
    ensures EndsWithEllipsis(Display(sentence)) <==> |sentence| > 100
    ensures |sentence| <= 100 ==> Display(sentence) == sentence
    ensures |sentence| > 100 ==> Display(sentence)[..100] == sentence[..100]
  {
    EllipsisEndsWithTerminator(sentence);
  }

  /** A piece is reported when its stripped text has more than `threshold`
      words. */
  predicate Qualifies(piece: string, threshold: int) {
    Strip(piece) != [] && |Words(Strip(piece))| > threshold
  }

  /** The entry for piece number `number`, if it qualifies. */
  function LongEntry(number: nat, piece: string, threshold: int): seq<LongSentence> {
    if Qualifies(piece, threshold) then [LongSentence(number, |Words(Strip(piece))|, Display(Strip(piece)))] else []
  }

  /** The entries of all pieces, numbered from 1. */
  function LongEntries(pieces: seq<string>, threshold: int): seq<LongSentence> {
    if pieces == [] then []
    else LongEntries(pieces[..|pieces| - 1], threshold) + LongEntry(|pieces|, pieces[|pieces| - 1], threshold)
  }

  /** `_find_long_sentences` as a function of the text. */
  function LongSentences(text: string, threshold: int): (r: seq<LongSentence>)
    ensures |r| <= 10
  {
    var e := LongEntries(SentencePieces(text), threshold);
    if |e| <= 10 then e else e[..10]
  }

  /** `_find_long_sentences`: one pass over the pieces, appending. */
  method FindLongSentences(text: string, threshold: int := 25) returns (r: seq<LongSentence>)
    ensures r == LongSentences(text, threshold)
  {
    var sentences := SentencePieces(text);
    var longSentences: seq<LongSentence> := [];
    var i := 0;
    while i < |sentences|
      invariant 0 <= i <= |sentences|
      invariant longSentences == LongEntries(sentences[..i], threshold)
    {
      assert sentences[..i + 1][..i] == sentences[..i];
      var sentence := Strip(sentences[i]);
      if sentence != [] {
        var wordCount := |Words(sentence)|;
        if wordCount > threshold {
          longSentences := longSentences + [LongSentence(i + 1, wordCount, Display(sentence))];
        }
      }
      i := i + 1;
    }
    assert sentences[..|sentences|] == sentences;
    r := if |longSentences| <= 10 then longSentences else longSentences[..10];
  }

  /** Entry `e` reports piece number `e.sentenceNumber` (1-based) of
      `pieces`: it qualifies, and `e` carries its word count and display. */
  predicate Describes(e: LongSentence, pieces: seq<string>, threshold: int) {
    && 1 <= e.sentenceNumber <= |pieces|
    && Qualifies(pieces[e.sentenceNumber - 1], threshold)
    && e.wordCount == |Words(Strip(pieces[e.sentenceNumber - 1]))|
    && e.text == Display(Strip(pieces[e.sentenceNumber - 1]))
  }

  /** Each entry describes its piece. */
  lemma {:induction false} LongEntriesDescribe(pieces: seq<string>, threshold: int)
    ensures forall k :: 0 <= k < |LongEntries(pieces, threshold)| ==>
              Describes(LongEntries(pieces, threshold)[k], pieces, threshold)
  {
    if pieces != [] {
      var init := pieces[..|pieces| - 1];
      LongEntriesDescribe(init, threshold);
      var e0 := LongEntries(init, threshold);
      var e := LongEntries(pieces, threshold);
      assert e == e0 + LongEntry(|pieces|, pieces[|pieces| - 1], threshold);
      forall k | 0 <= k < |e| ensures Describes(e[k], pieces, threshold) {
        if k < |e0| {
          assert e[k] == e0[k];
          assert Describes(e0[k], init, threshold);
          var n := e0[k].sentenceNumber;
          assert pieces[n - 1] == init[n - 1];
        }
      }
    }
  }

  /** Entry numbers strictly increase. */
  lemma {:induction false} LongEntriesIncrease(pieces: seq<string>, threshold: int)
    ensures forall i, j :: 0 <= i < j < |LongEntries(pieces, threshold)| ==>
              LongEntries(pieces, threshold)[i].sentenceNumber < LongEntries(pieces, threshold)[j].sentenceNumber
  {
    if pieces != [] {
      var init := pieces[..|pieces| - 1];
      LongEntriesIncrease(init, threshold);
      LongEntriesDescribe(init, threshold);
      var e0 := LongEntries(init, threshold);
      var e := LongEntries(pieces, threshold);
      assert e == e0 + LongEntry(|pieces|, pieces[|pieces| - 1], threshold);
      forall i, j | 0 <= i < j < |e| ensures e[i].sentenceNumber < e[j].sentenceNumber {
        if j >= |e0| {
          assert e[i] == e0[i];
          assert Describes(e0[i], init, threshold);
        } else {
          assert e[i] == e0[i] && e[j] == e0[j];
        }
      }
    }
  }

  /** Some entry of `e` carries number `n`. */
  predicate HasEntry(e: seq<LongSentence>, n: nat) {
    exists k :: 0 <= k < |e| && e[k].sentenceNumber == n
  }

  /** Every qualifying piece has an entry. */
  lemma {:induction false} LongEntriesComplete(pieces: seq<string>, threshold: int)
    ensures forall m :: 0 <= m < |pieces| && Qualifies(pieces[m], threshold) ==>
              HasEntry(LongEntries(pieces, threshold), m + 1)
  {
    if pieces != [] {
      var init := pieces[..|pieces| - 1];
      LongEntriesComplete(init, threshold);
      var e0 := LongEntries(init, threshold);
      var e := LongEntries(pieces, threshold);
      assert e == e0 + LongEntry(|pieces|, pieces[|pieces| - 1], threshold);
      forall m | 0 <= m < |pieces| && Qualifies(pieces[m], threshold)
        ensures HasEntry(e, m + 1)
      {
        if m == |pieces| - 1 {
          assert e[|e0|].sentenceNumber == m + 1;
        } else {
          assert init[m] == pieces[m];
          assert HasEntry(e0, m + 1);
          var k :| 0 <= k < |e0| && e0[k].sentenceNumber == m + 1;
          assert e[k] == e0[k];
        }
      }
    }
  }

  /** A piece and its stripped text hold no terminator. */
  lemma StripKeepsNoTerminator(piece: string)
    requires NoTerminator(piece)
    ensures NoTerminator(Strip(piece))
  {
    StripSpec(piece);
    var i := StripStart(piece);
    forall m | 0 <= m < |Strip(piece)| ensures !IsTerminator(Strip(piece)[m]) {
      assert Strip(piece)[m] == piece[i + m];
    }
  }

  /** The properties of `_find_long_sentences`: at most 10 entries, each for
      the 1-based piece of the split (empty pieces counted) with more than
      `threshold` words, its display at most 103 characters and ending in
      `...` exactly when the sentence is longer than 100. */
  lemma LongSentencesSpec(text: string, threshold: int)
    ensures var r := LongSentences(text, threshold);
      var pieces := SentencePieces(text);
      && |r| <= 10
      && (forall k :: 0 <= k < |r| ==>
            && Describes(r[k], pieces, threshold)
            && r[k].wordCount > threshold
            && |r[k].text| <= 103
            && (EndsWithEllipsis(r[k].text) <==> |Strip(pieces[r[k].sentenceNumber - 1])| > 100))
      && (forall i, j :: 0 <= i < j < |r| ==> r[i].sentenceNumber < r[j].sentenceNumber)
  {
    var pieces := SentencePieces(text);
    var e := LongEntries(pieces, threshold);
    var r := LongSentences(text, threshold);
    LongEntriesDescribe(pieces, threshold);
    LongEntriesIncrease(pieces, threshold);
    assert forall k :: 0 <= k < |r| ==> r[k] == e[k];
    forall k | 0 <= k < |r|
      ensures && r[k].wordCount > threshold
              && |r[k].text| <= 103
              && (EndsWithEllipsis(r[k].text) <==> |Strip(pieces[r[k].sentenceNumber - 1])| > 100)
    {
      assert Describes(e[k], pieces, threshold);
      var piece := pieces[e[k].sentenceNumber - 1];
      StripKeepsNoTerminator(piece);
      DisplaySpec(Strip(piece));
    }
  }

  /** A qualifying piece is missing from `_find_long_sentences` only when
      10 entries of earlier pieces are listed. */
  lemma LongSentencesComplete(text: string, threshold: int, m: nat)
    requires m < |SentencePieces(text)| && Qualifies(SentencePieces(text)[m], threshold)
    requires !HasEntry(LongSentences(text, threshold), m + 1)
    ensures |LongSentences(text, threshold)| == 10
    ensures forall k :: 0 <= k < 10 ==> LongSentences(text, threshold)[k].sentenceNumber <= m
  {
    var pieces := SentencePieces(text);
    var e := LongEntries(pieces, threshold);
    var r := LongSentences(text, threshold);
    LongEntriesComplete(pieces, threshold);
    LongEntriesIncrease(pieces, threshold);
    assert HasEntry(e, m + 1);
    var q :| 0 <= q < |e| && e[q].sentenceNumber == m + 1;
    if q < |r| {
      assert false;
    }
    forall k | 0 <= k < 10 ensures r[k].sentenceNumber <= m {
      assert r[k] == e[k];
    }
  }

  // ---------------------------------------------------------------------
  // Capitalization issues
  // ---------------------------------------------------------------------

  /** The words whose lowered form is `lower`, in order. */
  function FormsOf(words: seq<string>, lower: string): (r: seq<string>)
    ensures forall w :: w in r <==> w in words && Lower(w) == lower
  {
    if words == [] then []
    else
      var init := words[..|words| - 1];
      var last := words[|words| - 1];
      assert words == init + [last];
      FormsOf(init, lower) + (if Lower(last) == lower then [last] else [])
  }

  /** `word_forms[lower]`: the distinct surface forms of `lower`. */
  function Forms(words: seq<string>, lower: string): seq<string> {
    Uniq(FormsOf(words, lower))
  }

  /** The keys of `word_forms` in insertion order. */
  function LoweredKeys(words: seq<string>): seq<string> {
    Uniq(LowerAll(words))
  }

  /** `f"{lower}: {', '.join(sorted(forms))}"`. */
  function IssueText(lower: string, forms: seq<string>): string {
    lower + ": " + Join(Sorting.Sort(forms, StrLe), ", ")
  }

  /** The keys among `keys` that have several forms and more than 3
      characters, in order. */
  function IssueKeys(words: seq<string>, keys: seq<string>): seq<string> {
    if keys == [] then []
    else
      var k := keys[|keys| - 1];
      IssueKeys(words, keys[..|keys| - 1]) + (if |Forms(words, k)| > 1 && |k| > 3 then [k] else [])
  }

  function RenderIssues(words: seq<string>, keys: seq<string>): (r: seq<string>)
    ensures |r| == |keys|
  {
    seq(|keys|, i requires 0 <= i < |keys| => IssueText(keys[i], Forms(words, keys[i])))
  }

  /** `_find_capitalization_issues` as a function of the text. */
  function CapitalizationIssues(text: string): (r: seq<string>)
    ensures |r| <= 20
  {
    var words := Words(text);
    var keys := IssueKeys(words, LoweredKeys(words));
    RenderIssues(words, if |keys| <= 20 then keys else keys[..20])
  }

  lemma LowerAllSnoc(ws: seq<string>, w: string)
    ensures LowerAll(ws + [w]) == LowerAll(ws) + [Lower(w)]
  {
  }

  lemma LoweredKeysSnoc(ws: seq<string>, w: string)
    ensures LoweredKeys(ws + [w])
            == if Lower(w) in LoweredKeys(ws) then LoweredKeys(ws) else LoweredKeys(ws) + [Lower(w)]
  {
    LowerAllSnoc(ws, w);
    UniqSnoc(LowerAll(ws), Lower(w));
  }

  lemma FormsSnoc(ws: seq<string>, w: string, k: string)
    ensures Forms(ws + [w], k)
            == if Lower(w) == k && w !in Forms(ws, k) then Forms(ws, k) + [w] else Forms(ws, k)
  {
    assert (ws + [w])[..|ws|] == ws;
    if Lower(w) == k {
      assert FormsOf(ws + [w], k) == FormsOf(ws, k) + [w];
      UniqSnoc(FormsOf(ws, k), w);
    } else {
      assert FormsOf(ws + [w], k) == FormsOf(ws, k) + [];
      assert FormsOf(ws, k) + [] == FormsOf(ws, k);
    }
  }

  /** A word with forms lowers to one of the keys. */
  lemma FormsOfKey(ws: seq<string>, k: string)
    ensures FormsOf(ws, k) != [] ==> k in LowerAll(ws)
  {
    if FormsOf(ws, k) != [] {
      var x := FormsOf(ws, k)[0];
      assert x in FormsOf(ws, k);
      var m :| 0 <= m < |ws| && ws[m] == x;
      assert LowerAll(ws)[m] == k;
    }
  }

  /** A key no word lowers to has no forms. */
  lemma NoKeyNoForms(ws: seq<string>, k: string)
    requires k !in LoweredKeys(ws)
    ensures Forms(ws, k) == []
  {
    FormsOfKey(ws, k);
  }

  /** `m` is the `word_forms` dictionary after the words `ws`: one entry
      per lowered key, holding that key's surface forms. */
  ghost predicate FormsAfter(m: map<string, seq<string>>, ws: seq<string>) {
    && (forall k :: k in m <==> k in LoweredKeys(ws))
    && (forall k :: k in m ==> m[k] == Forms(ws, k))
  }

  /** One step of the `word_forms` loop: the key gets an empty entry when
      new, then the word's surface form is added to that entry unless it is
      already there (the set's `add`). */
  function AddForm(m: map<string, seq<string>>, w: string): map<string, seq<string>> {
    var f := if Lower(w) in m then m[Lower(w)] else [];
    m[Lower(w) := if w in f then f else f + [w]]
  }

  /** After one step, a key of the dictionary holds its forms. */
  lemma AddFormAt(m: map<string, seq<string>>, ws: seq<string>, w: string, k: string)
    requires FormsAfter(m, ws)
    requires k in AddForm(m, w)
    ensures AddForm(m, w)[k] == Forms(ws + [w], k)
  {
    FormsSnoc(ws, w, k);
    if k == Lower(w) && k !in m {
      NoKeyNoForms(ws, k);
    }
  }

  lemma AddFormStep(m: map<string, seq<string>>, ws: seq<string>, w: string)
    requires FormsAfter(m, ws)
    ensures FormsAfter(AddForm(m, w), ws + [w])
  {
    var m' := AddForm(m, w);
    forall k ensures k in m' <==> k in LoweredKeys(ws + [w]) {
      LoweredKeysSnoc(ws, w);
    }
    forall k | k in m' ensures m'[k] == Forms(ws + [w], k) {
      AddFormAt(m, ws, w, k);
    }
  }

  lemma RenderIssuesSnoc(words: seq<string>, keys: seq<string>, k: string)
    ensures RenderIssues(words, keys + [k]) == RenderIssues(words, keys) + [IssueText(k, Forms(words, k))]
  {
  }

  lemma RenderIssuesPrefix(words: seq<string>, keys: seq<string>, n: nat)
    requires n <= |keys|
    ensures RenderIssues(words, keys)[..n] == RenderIssues(words, keys[..n])
  {
  }

  /** The `word_forms` dictionary after the words `ws`, one `AddForm` per word. */
  function FormsMap(ws: seq<string>): map<string, seq<string>> {
    if ws == [] then map[] else AddForm(FormsMap(ws[..|ws| - 1]), ws[|ws| - 1])
  }

  /** The dictionary holds one entry per lowered key, with that key's forms. */
  lemma {:induction false} FormsMapSpec(ws: seq<string>)
    ensures FormsAfter(FormsMap(ws), ws)
  {
    if ws != [] {
      var init, w := ws[..|ws| - 1], ws[|ws| - 1];
      assert ws == init + [w];
      assert FormsMap(ws) == AddForm(FormsMap(init), w);
      FormsMapSpec(init);
      AddFormStep(FormsMap(init), init, w);
    }
  }

  /** One step of the first loop: a key is recorded exactly when the word's
      lowered form is new to the dictionary. */
  lemma CollectStep(ws: seq<string>, w: string)
    ensures LoweredKeys(ws + [w]) == if Lower(w) in FormsMap(ws) then LoweredKeys(ws) else LoweredKeys(ws) + [Lower(w)]
    ensures FormsMap(ws + [w]) == AddForm(FormsMap(ws), w)
  {
    FormsMapSpec(ws);
    LoweredKeysSnoc(ws, w);
    assert (ws + [w])[..|ws|] == ws;
  }

  /** The first loop of `_find_capitalization_issues`: fills `word_forms`
      and records its keys in insertion order. */
  method CollectForms(words: seq<string>) returns (keys: seq<string>, wordForms: map<string, seq<string>>)
    ensures keys == LoweredKeys(words)
    ensures wordForms == FormsMap(words)
  {
    keys := [];
    wordForms := map[];
    var i := 0;
    while i < |words|
      invariant 0 <= i <= |words|
      invariant keys == LoweredKeys(words[..i])
      invariant wordForms == FormsMap(words[..i])
    {
      var word := words[i];
      var lower := Lower(word);
      assert words[..i + 1] == words[..i] + [word];
      CollectStep(words[..i], word);
      if lower !in wordForms {
        keys := keys + [lower];
      }
      wordForms := AddForm(wordForms, word);
      i := i + 1;
    }
    assert words[..|words|] == words;
  }

  /** One step of the second loop: the key at `j` adds its issue text
      exactly when it has several forms and more than 3 characters. */
  lemma IssueStep(words: seq<string>, keys: seq<string>, j: nat)
    requires j < |keys|
    ensures RenderIssues(words, IssueKeys(words, keys[..j + 1]))
            == RenderIssues(words, IssueKeys(words, keys[..j]))
               + (if |Forms(words, keys[j])| > 1 && |keys[j]| > 3
                  then [IssueText(keys[j], Forms(words, keys[j]))] else [])
  {
    assert keys[..j + 1][..j] == keys[..j];
    var done := IssueKeys(words, keys[..j]);
    if |Forms(words, keys[j])| > 1 && |keys[j]| > 3 {
      assert IssueKeys(words, keys[..j + 1]) == done + [keys[j]];
      RenderIssuesSnoc(words, done, keys[j]);
    } else {
      assert IssueKeys(words, keys[..j + 1]) == done + [];
      assert done + [] == done;
    }
  }

  /** A key of the dictionary holds that key's forms. */
  lemma FormsAt(m: map<string, seq<string>>, words: seq<string>, k: string)
    requires FormsAfter(m, words) && k in LoweredKeys(words)
    ensures k in m && m[k] == Forms(words, k)
  {
  }

  /** `_find_capitalization_issues`: a loop filling `word_forms`, then a
      loop collecting the issues. */
  method FindCapitalizationIssues(text: string) returns (issues: seq<string>)
    ensures issues == CapitalizationIssues(text)
  {
    var words := Words(text);
    var keys, wordForms := CollectForms(words);
    FormsMapSpec(words);
    var all: seq<string> := [];
    var j := 0;
    assert keys[..0] == [];
    assert RenderIssues(words, []) == [];
    while j < |keys|
      invariant 0 <= j <= |keys|
      invariant all == RenderIssues(words, IssueKeys(words, keys[..j]))
    {
      var lower := keys[j];
      FormsAt(wordForms, words, lower);
      var forms := wordForms[lower];
      IssueStep(words, keys, j);
      if |forms| > 1 && |lower| > 3 {
        all := all + [IssueText(lower, forms)];
      }
      j := j + 1;
    }
    assert keys[..|keys|] == keys;
    if |all| > 20 {
      RenderIssuesPrefix(words, IssueKeys(words, keys), 20);
    }
    issues := if |all| <= 20 then all else all[..20];
  }

  lemma LowerIsLowercase(s: string)
    ensures IsLowercase(Lower(s))
  {
  }

  lemma StrLeIsTotalPreorder()
    ensures Sorting.TotalPreorder(StrLe)
  {
    forall a: string, b: string ensures StrLe(a, b) || StrLe(b, a) {
      StrLeTotal(a, b);
    }
    forall a: string, b: string, c: string | StrLe(a, b) && StrLe(b, c) ensures StrLe(a, c) {
      StrLeTransitive(a, b, c);
    }
  }

  /** A key the finder reports: a lowercase key of the text's words of more
      than 3 characters, with at least two distinct surface forms, all of
      which are words of the text lowering to it, listed in sorted order. */
  predicate ReportedKey(words: seq<string>, k: string) {
    && k in LoweredKeys(words)
    && IsLowercase(k) && |k| > 3
    && |Forms(words, k)| >= 2 && Distinct(Forms(words, k))
    && (forall f :: f in Forms(words, k) ==> f in words && Lower(f) == k)
    && Sorting.SortedBy(Sorting.Sort(Forms(words, k), StrLe), StrLe)
    && multiset(Sorting.Sort(Forms(words, k), StrLe)) == multiset(Forms(words, k))
  }

  /** Every selected key is reported. */
  lemma {:induction false} IssueKeysSpec(words: seq<string>, keys: seq<string>)
    requires forall i :: 0 <= i < |keys| ==> keys[i] in LoweredKeys(words)
    ensures forall i :: 0 <= i < |IssueKeys(words, keys)| ==> ReportedKey(words, IssueKeys(words, keys)[i])
  {
    if keys != [] {
      IssueKeysSpec(words, keys[..|keys| - 1]);
      var k := keys[|keys| - 1];
      if |Forms(words, k)| > 1 && |k| > 3 {
        SelectedIsReported(words, k);
      }
    }
  }

  lemma SelectedIsReported(words: seq<string>, k: string)
    requires k in LoweredKeys(words) && |Forms(words, k)| > 1 && |k| > 3
    ensures ReportedKey(words, k)
  {
    assert k in LowerAll(words);
    var m :| 0 <= m < |words| && LowerAll(words)[m] == k;
    LowerIsLowercase(words[m]);
    StrLeIsTotalPreorder();
    Sorting.SortSorted(Forms(words, k), StrLe);
  }

  /** The properties of `_find_capitalization_issues`: at most 20 issues,
      the first (up to) 20 selected keys, each rendered as the key, `: ` and
      its sorted forms joined by `, `, and each a reported key. */
  lemma CapitalizationIssuesSpec(text: string)
    ensures var words := Words(text);
      var keys := IssueKeys(words, LoweredKeys(words));
      var r := CapitalizationIssues(text);
      && |r| == (if |keys| <= 20 then |keys| else 20)
      && forall i :: 0 <= i < |r| ==>
           r[i] == keys[i] + ": " + Join(Sorting.Sort(Forms(words, keys[i]), StrLe), ", ")
           && ReportedKey(words, keys[i])
  {
    var words := Words(text);
    var keys := IssueKeys(words, LoweredKeys(words));
    var shown := if |keys| <= 20 then keys else keys[..20];
    var r := CapitalizationIssues(text);
    assert forall i :: 0 <= i < |r| ==>
             r[i] == keys[i] + ": " + Join(Sorting.Sort(Forms(words, keys[i]), StrLe), ", ") by {
      assert r == RenderIssues(words, shown);
      forall i | 0 <= i < |r|
        ensures r[i] == keys[i] + ": " + Join(Sorting.Sort(Forms(words, keys[i]), StrLe), ", ")
      {
        assert shown[i] == keys[i];
      }
    }
    assert forall i :: 0 <= i < |r| ==> ReportedKey(words, keys[i]) by {
      IssueKeysSpec(words, LoweredKeys(words));
    }
  }

  // ---------------------------------------------------------------------
  // Similar names and the consistency check
  // ---------------------------------------------------------------------

  /** `name.lower()[:3]`: the grouping key of a name. */
  function NameKey(name: string): (r: string)
    ensures |r| == if |name| <= 3 then |name| else 3
    ensures forall k :: 0 <= k < |r| ==> r[k] == LowerChar(name[k])
  {
    var l := Lower(name);
    if |l| <= 3 then l else l[..3]
  }

  function NameKeys(names: seq<string>): (r: seq<string>)
    ensures |r| == |names|
  {
    seq(|names|, k requires 0 <= k < |names| => NameKey(names[k]))
  }

  /** `name_groups[key]`: the names of `order` with that key, in order. */
  function Group(order: seq<string>, key: string): (r: seq<string>)
    ensures forall x :: x in r <==> x in order && NameKey(x) == key
    ensures Distinct(order) ==> Distinct(r)
  {
    if order == [] then []
    else
      var init := order[..|order| - 1];
      var last := order[|order| - 1];
      assert order == init + [last];
      Group(init, key) + (if NameKey(last) == key then [last] else [])
  }

  /** The keys of `name_groups` in insertion order. */
  function GroupKeys(order: seq<string>): seq<string> {
    Uniq(NameKeys(order))
  }

  /** One entry of the result: the group's first name and the group. */
  type Variation = (string, seq<string>)

  /** The groups of the keys `keys` that have more than one name, in order. */
  function SelectGroups(order: seq<string>, keys: seq<string>): seq<Variation> {
    if keys == [] then []
    else
      var g := Group(order, keys[|keys| - 1]);
      SelectGroups(order, keys[..|keys| - 1]) + (if |g| > 1 then [(g[0], g)] else [])
  }

  /** `_find_similar_names` when `set(names)` is iterated in the order
      `order`. */
  function SimilarNames(order: seq<string>): seq<Variation> {
    SelectGroups(order, GroupKeys(order))
  }

  /** `m` is `name_groups` after the names `ns`. */
  ghost predicate GroupsAfter(m: map<string, seq<string>>, ns: seq<string>) {
    && (forall k :: k in m <==> k in GroupKeys(ns))
    && (forall k :: k in m ==> m[k] == Group(ns, k))
  }

  /** One step of the grouping loop: the name is appended to its key's
      list, which is created empty when new. */
  function AddName(m: map<string, seq<string>>, name: string): map<string, seq<string>> {
    var k := NameKey(name);
    m[k := (if k in m then m[k] else []) + [name]]
  }

  lemma GroupKeysSnoc(ns: seq<string>, n: string)
    ensures GroupKeys(ns + [n]) == if NameKey(n) in GroupKeys(ns) then GroupKeys(ns) else GroupKeys(ns) + [NameKey(n)]
  {
    assert NameKeys(ns + [n]) == NameKeys(ns) + [NameKey(n)];
    UniqSnoc(NameKeys(ns), NameKey(n));
  }

  lemma GroupSnoc(ns: seq<string>, n: string, k: string)
    ensures Group(ns + [n], k) == Group(ns, k) + (if NameKey(n) == k then [n] else [])
  {
    assert (ns + [n])[..|ns|] == ns;
  }

  /** A key with names is the key of one of them. */
  lemma GroupKeyed(ns: seq<string>, k: string)
    ensures Group(ns, k) != [] ==> k in NameKeys(ns)
  {
    if Group(ns, k) != [] {
      var x := Group(ns, k)[0];
      assert x in Group(ns, k);
      var m :| 0 <= m < |ns| && ns[m] == x;
      assert NameKeys(ns)[m] == k;
    }
  }

  /** A key no name has holds no names. */
  lemma NoKeyNoGroup(ns: seq<string>, k: string)
    requires k !in GroupKeys(ns)
    ensures Group(ns, k) == []
  {
    GroupKeyed(ns, k);
  }

  /** After one step, a key of the dictionary holds its group. */
  lemma AddNameAt(m: map<string, seq<string>>, ns: seq<string>, n: string, j: string)
    requires GroupsAfter(m, ns)
    requires j in AddName(m, n)
    ensures AddName(m, n)[j] == Group(ns + [n], j)
  {
    GroupSnoc(ns, n, j);
    if j == NameKey(n) && j !in m {
      NoKeyNoGroup(ns, j);
    }
    if j != NameKey(n) {
      assert Group(ns, j) + [] == Group(ns, j);
    }
  }

  lemma AddNameStep(m: map<string, seq<string>>, ns: seq<string>, n: string)
    requires GroupsAfter(m, ns)
    ensures GroupsAfter(AddName(m, n), ns + [n])
  {
    var m' := AddName(m, n);
    forall j ensures j in m' <==> j in GroupKeys(ns + [n]) {
      GroupKeysSnoc(ns, n);
    }
    forall j | j in m' ensures m'[j] == Group(ns + [n], j) {
      AddNameAt(m, ns, n, j);
    }
  }

  /** The `name_groups` dictionary after the names `ns`, one `AddName` per name. */
  function GroupsMap(ns: seq<string>): map<string, seq<string>> {
    if ns == [] then map[] else AddName(GroupsMap(ns[..|ns| - 1]), ns[|ns| - 1])
  }

  /** The dictionary holds one entry per key, with that key's names in order. */
  lemma {:induction false} GroupsMapSpec(ns: seq<string>)
    ensures GroupsAfter(GroupsMap(ns), ns)
  {
    if ns != [] {
      var init, n := ns[..|ns| - 1], ns[|ns| - 1];
      assert ns == init + [n];
      assert GroupsMap(ns) == AddName(GroupsMap(init), n);
      GroupsMapSpec(init);
      AddNameStep(GroupsMap(init), init, n);
    }
  }

  /** One step of the grouping loop: a key is recorded exactly when it is
      new to the dictionary. */
  lemma GroupStep(ns: seq<string>, n: string)
    ensures GroupKeys(ns + [n]) == if NameKey(n) in GroupsMap(ns) then GroupKeys(ns) else GroupKeys(ns) + [NameKey(n)]
    ensures GroupsMap(ns + [n]) == AddName(GroupsMap(ns), n)
  {
    GroupsMapSpec(ns);
    GroupKeysSnoc(ns, n);
    assert (ns + [n])[..|ns|] == ns;
  }

  /** A key of the dictionary holds that key's group. */
  lemma GroupAt(m: map<string, seq<string>>, ns: seq<string>, k: string)
    requires GroupsAfter(m, ns) && k in GroupKeys(ns)
    ensures k in m && m[k] == Group(ns, k)
  {
  }

  lemma SelectGroupsSnoc(order: seq<string>, keys: seq<string>, k: string)
    ensures SelectGroups(order, keys + [k])
            == SelectGroups(order, keys)
               + (if |Group(order, k)| > 1 then [(Group(order, k)[0], Group(order, k))] else [])
  {
    assert (keys + [k])[..|keys|] == keys;
  }

  /** The grouping loop of `_find_similar_names`. */
  method GroupNames(order: seq<string>) returns (keys: seq<string>, nameGroups: map<string, seq<string>>)
    ensures keys == GroupKeys(order)
    ensures nameGroups == GroupsMap(order)
  {
    keys := [];
    nameGroups := map[];
    var i := 0;
    while i < |order|
      invariant 0 <= i <= |order|
      invariant keys == GroupKeys(order[..i])
      invariant nameGroups == GroupsMap(order[..i])
    {
      var name := order[i];
      var key := NameKey(name);
      assert order[..i + 1] == order[..i] + [name];
      GroupStep(order[..i], name);
      if key !in nameGroups {
        keys := keys + [key];
      }
      nameGroups := AddName(nameGroups, name);
      i := i + 1;
    }
    assert order[..|order|] == order;
  }

  /** `_find_similar_names` with `set(names)` iterated as `order` (each name
      once): the grouping loop, then the selection loop. */
  method FindSimilarNames(order: seq<string>) returns (variations: seq<Variation>)
    ensures variations == SimilarNames(order)
  {
    var keys, nameGroups := GroupNames(order);
    GroupsMapSpec(order);
    variations := [];
    var j := 0;
    assert keys[..0] == [];
    while j < |keys|
      invariant 0 <= j <= |keys|
      invariant variations == SelectGroups(order, keys[..j])
    {
      assert keys[..j + 1] == keys[..j] + [keys[j]];
      SelectGroupsSnoc(order, keys[..j], keys[j]);
      GroupAt(nameGroups, order, keys[j]);
      var group := nameGroups[keys[j]];
      if |group| > 1 {
        variations := variations + [(group[0], group)];
      }
      j := j + 1;
    }
    assert keys[..|keys|] == keys;
  }

  /** Every selected entry is a group: at least two distinct names of
      `order` sharing one key, led by the entry's first name. */
  predicate IsVariation(v: Variation, order: seq<string>) {
    && |v.1| >= 2
    && v.0 == v.1[0]
    && Distinct(v.1)
    && (forall x :: x in v.1 ==> x in order && NameKey(x) == NameKey(v.0))
  }

  lemma {:induction false} SelectGroupsSound(order: seq<string>, keys: seq<string>)
    requires Distinct(order)
    ensures forall i :: 0 <= i < |SelectGroups(order, keys)| ==> IsVariation(SelectGroups(order, keys)[i], order)
  {
    if keys != [] {
      SelectGroupsSound(order, keys[..|keys| - 1]);
      var g := Group(order, keys[|keys| - 1]);
      if |g| > 1 {
        assert g[0] in g;
      }
    }
  }

  lemma {:induction false} SelectGroupsComplete(order: seq<string>, keys: seq<string>, k: string)
    requires k in keys && |Group(order, k)| > 1
    ensures (Group(order, k)[0], Group(order, k)) in SelectGroups(order, keys)
  {
    if keys[|keys| - 1] != k {
      SelectGroupsComplete(order, keys[..|keys| - 1], k);
    }
  }

  /** Two different elements of a sequence make it at least 2 long. */
  lemma TwoMembers<T>(s: seq<T>, a: T, b: T)
    requires a in s && b in s && a != b
    ensures |s| >= 2
  {
  }

  /** The properties of `_find_similar_names`: every entry is a group of at
      least two distinct names sharing their first three lowered letters,
      led by its first name; any two different names sharing those letters
      are reported together. */
  lemma SimilarNamesSpec(order: seq<string>, a: string, b: string)
    requires Distinct(order)
    ensures forall i :: 0 <= i < |SimilarNames(order)| ==> IsVariation(SimilarNames(order)[i], order)
    ensures a in order && b in order && a != b && NameKey(a) == NameKey(b) ==>
              exists i :: 0 <= i < |SimilarNames(order)| && a in SimilarNames(order)[i].1 && b in SimilarNames(order)[i].1
  {
    SelectGroupsSound(order, GroupKeys(order));
    if a in order && b in order && a != b && NameKey(a) == NameKey(b) {
      var k := NameKey(a);
      var g := Group(order, k);
      var m :| 0 <= m < |order| && order[m] == a;
      assert NameKeys(order)[m] == k;
      TwoMembers(g, a, b);
      SelectGroupsComplete(order, GroupKeys(order), k);
      var i :| 0 <= i < |SimilarNames(order)| && SimilarNames(order)[i] == (g[0], g);
      assert a in SimilarNames(order)[i].1;
    }
  }

  /** `\b[A-Z][a-z]+\b` matches exactly the whole words of this shape. */
  predicate IsName(w: string) {
    |w| >= 2 && IsUpper(w[0]) && forall k :: 1 <= k < |w| ==> IsLowerLetter(w[k])
  }

  /** `re.findall(r'\b[A-Z][a-z]+\b', text)`. */
  function CapitalizedWords(text: string): (r: seq<string>)
    ensures forall w :: w in r <==> w in Words(text) && IsName(w)
  {
    FilterWords(Words(text), IsName)
  }

  function FilterWords(ws: seq<string>, keep: string -> bool): (r: seq<string>)
    ensures forall w :: w in r <==> w in ws && keep(w)
  {
    if ws == [] then []
    else
      var init := ws[..|ws| - 1];
      assert ws == init + [ws[|ws| - 1]];
      FilterWords(init, keep) + (if keep(ws[|ws| - 1]) then [ws[|ws| - 1]] else [])
  }

  /** The result of `check_consistency`. */
  datatype Consistency = Consistency(nameVariations: seq<Variation>, capitalizationIssues: seq<string>)

  /** `check_consistency`, with `set(capitalized)` iterated as `order`. */
  method CheckConsistency(text: string, order: seq<string>) returns (r: Consistency)
    requires Distinct(order)
    requires forall w :: w in order <==> w in CapitalizedWords(text)
    ensures r == Consistency(SimilarNames(order), CapitalizationIssues(text))
    ensures forall i :: 0 <= i < |r.nameVariations| ==>
              forall x :: x in r.nameVariations[i].1 ==> x in Words(text) && IsName(x)
  {
    var nameVariations := FindSimilarNames(order);
    var issues := FindCapitalizationIssues(text);
    SimilarNamesSpec(order, "", "");
    r := Consistency(nameVariations, issues);
    forall i | 0 <= i < |r.nameVariations|
      ensures forall x :: x in r.nameVariations[i].1 ==> x in Words(text) && IsName(x)
    {
      assert IsVariation(r.nameVariations[i], order);
    }
  }

  // ---------------------------------------------------------------------
  // Classifiers
  // ---------------------------------------------------------------------

  /** `_get_complexity_level`. */
  function ComplexityLevel(score: real): (r: string)
    ensures r == "Simple" <==> score >= 80.0
    ensures r == "Moderate" <==> 60.0 <= score < 80.0
    ensures r == "Complex" <==> score < 60.0
  {
    if score >= 80.0 then "Simple"
    else if score >= 60.0 then "Moderate"
    else "Complex"
  }

  /** `_get_grade_level`. */
  function GradeLevel(score: real): string {
    if score >= 90.0 then "5th Grade"
    else if score >= 80.0 then "6th Grade"
    else if score >= 70.0 then "7th-8th Grade"
    else if score >= 60.0 then "9th-10th Grade"
    else if score >= 50.0 then "11th-12th Grade"
    else if score >= 30.0 then "College"
    else "College Graduate"
  }

  /** The grade labels from the hardest text to the easiest. */
  const GradeLabels: seq<string> :=
    ["College Graduate", "College", "11th-12th Grade", "9th-10th Grade", "7th-8th Grade", "6th Grade", "5th Grade"]

  /** How many of the thresholds 30, 50, 60, 70, 80, 90 the score reaches. */
  function GradeRank(score: real): (n: nat)
    ensures n < |GradeLabels|
  {
    (if score >= 30.0 then 1 else 0) + (if score >= 50.0 then 1 else 0)
    + (if score >= 60.0 then 1 else 0) + (if score >= 70.0 then 1 else 0)
    + (if score >= 80.0 then 1 else 0) + (if score >= 90.0 then 1 else 0)
  }

  /** The grade is the label indexed by the number of thresholds reached. */
  lemma GradeLevelByRank(score: real)
    ensures GradeLevel(score) == GradeLabels[GradeRank(score)]
  {
    if score >= 90.0 {
      assert GradeRank(score) == 6;
    } else if score >= 80.0 {
      assert GradeRank(score) == 5;
    } else if score >= 70.0 {
      assert GradeRank(score) == 4;
    } else if score >= 60.0 {
      assert GradeRank(score) == 3;
    } else if score >= 50.0 {
      assert GradeRank(score) == 2;
    } else if score >= 30.0 {
      assert GradeRank(score) == 1;
    } else {
      assert GradeRank(score) == 0;
    }
  }

  /** The grade label is a monotone function of the score: a higher score
      never gets a label further towards "College Graduate". */
  lemma GradeLevelMonotone(s1: real, s2: real)
    requires s1 <= s2
    ensures exists i, j :: 0 <= i <= j < |GradeLabels|
              && GradeLevel(s1) == GradeLabels[i] && GradeLevel(s2) == GradeLabels[j]
  {
    GradeLevelByRank(s1);
    GradeLevelByRank(s2);
    var i := GradeRank(s1);
    var j := GradeRank(s2);
    assert GradeLevel(s1) == GradeLabels[i] && GradeLevel(s2) == GradeLabels[j];
  }

  /** The labels are pairwise different, so the index in the monotonicity
      statement is determined by the label. */
  lemma GradeLabelsDistinct()
    ensures Distinct(GradeLabels)
  {
  }

  // ---------------------------------------------------------------------
  // Style: point of view and tone
  // ---------------------------------------------------------------------

  const FirstPersonWords: set<string> := {"i", "me", "my", "mine", "we", "us", "our"}
  const SecondPersonWords: set<string> := {"you", "your", "yours"}
  const ThirdPersonWords: set<string> := {"he", "she", "they", "him", "her", "them"}
  const FormalWords: set<string> := {"furthermore", "moreover", "consequently", "therefore"}
  const CasualWords: set<string> := {"gonna", "wanna", "yeah", "ok", "cool"}

  /** `len([w for w in words if w in vocab])`. */
  function CountIn(words: seq<string>, vocab: set<string>): (n: nat)
    ensures n <= |words|
    ensures n == 0 <==> forall k :: 0 <= k < |words| ==> words[k] !in vocab
  {
    if words == [] then 0
    else CountIn(words[..|words| - 1], vocab) + (if words[|words| - 1] in vocab then 1 else 0)
  }

  lemma ProductPositive(a: real, b: real)
    requires a > 0.0 && b > 0.0
    ensures a * b > 0.0
  {
  }

  lemma ProductNonNegative(a: real, b: real)
    requires a >= 0.0 && b > 0.0
    ensures a * b >= 0.0
  {
  }

  /** `x / total > 0.5` on reals, for a positive total. */
  lemma MoreThanHalf(x: nat, total: nat)
    requires total > 0
    ensures (x as real) / (total as real) > 0.5 <==> 2 * x > total
  {
    var t := total as real;
    var q := (x as real) / t;
    assert q * t == x as real;
    if q > 0.5 {
      ProductPositive(q - 0.5, t);
      assert (q - 0.5) * t == q * t - 0.5 * t;
    } else {
      ProductNonNegative(0.5 - q, t);
      assert (0.5 - q) * t == 0.5 * t - q * t;
    }
  }

  /** The point of view of `analyze_style`: the pronoun class that is more
      than half of all pronouns, checked first, second, third. */
  function DetectPov(first: nat, second: nat, third: nat): (r: string)
    ensures r == "First Person" <==> 2 * first > first + second + third
    ensures r == "Second Person" <==> 2 * second > first + second + third
    ensures r == "Third Person" <==> 2 * third > first + second + third
    ensures r == "Unknown" <==>
              2 * first <= first + second + third && 2 * second <= first + second + third
              && 2 * third <= first + second + third
  {
    var total := first + second + third;
    if total > 0 then
      MoreThanHalf(first, total);
      MoreThanHalf(second, total);
      MoreThanHalf(third, total);
      if (first as real) / (total as real) > 0.5 then "First Person"
      else if (second as real) / (total as real) > 0.5 then "Second Person"
      else if (third as real) / (total as real) > 0.5 then "Third Person"
      else "Unknown"
    else "Unknown"
  }

  /** `'Formal' if formal_words > casual_words else 'Casual'`. */
  function Tone(formal: nat, casual: nat): (r: string)
    ensures r == "Formal" <==> formal > casual
    ensures r == "Casual" <==> formal <= casual
  {
    if formal > casual then "Formal" else "Casual"
  }

  /** End of the run of non-space characters from `i`. */
  function TokenEnd(s: string, i: nat): (j: nat)
    requires i <= |s|
    ensures i <= j <= |s|
    ensures forall k :: i <= k < j ==> !IsSpace(s[k])
    ensures j == |s| || IsSpace(s[j])
    decreases |s| - i
  {
    if i == |s| || IsSpace(s[i]) then i else TokenEnd(s, i + 1)
  }

  /** `s.split()[0]`, or `None` where Python raises `IndexError` (a blank
      `s`). */
  function FirstToken(s: string): (r: Option<string>)
    ensures r.None? <==> IsBlank(s)
    ensures r.Some? ==> r.value != [] && forall k :: 0 <= k < |r.value| ==> !IsSpace(r.value[k])
  {
    var i := StripStart(s);
    if i == |s| then None else Some(s[i..TokenEnd(s, i)])
  }

  predicate StartsWith(s: string, prefix: string) {
    |prefix| <= |s| && s[..|prefix|] == prefix
  }

  /** The result of `analyze_style`. */
  datatype StyleAnalysis = StyleAnalysis(
    detectedPov: string,
    targetPov: string,
    povMatches: bool,
    firstPersonCount: nat,
    secondPersonCount: nat,
    thirdPersonCount: nat,
    formalIndicators: nat,
    casualIndicators: nat,
    toneAssessment: string)

  /** `analyze_style`; `None` stands for the `IndexError` a blank target
      point of view raises. The target tone is accepted and not used. */
  function AnalyzeStyle(text: string, targetTone: string := "Professional",
                        targetPov: string := "Third Limited"): (r: Option<StyleAnalysis>)
    ensures r.None? <==> IsBlank(targetPov)
    ensures r.Some? ==>
      var words := ExtractWords(text);
      && r.value.firstPersonCount == CountIn(words, FirstPersonWords)
      && r.value.secondPersonCount == CountIn(words, SecondPersonWords)
      && r.value.thirdPersonCount == CountIn(words, ThirdPersonWords)
      && r.value.targetPov == targetPov
  {
    var words := ExtractWords(text);
    var first := CountIn(words, FirstPersonWords);
    var second := CountIn(words, SecondPersonWords);
    var third := CountIn(words, ThirdPersonWords);
    var formal := CountIn(words, FormalWords);
    var casual := CountIn(words, CasualWords);
    var detected := DetectPov(first, second, third);
    match FirstToken(targetPov)
    case None => None
    case Some(token) =>
      Some(StyleAnalysis(detected, targetPov, StartsWith(detected, token),
                         first, second, third, formal, casual, Tone(formal, casual)))
  }

  /** The majority and tone rules of `analyze_style`: a point of view is
      reported only for a class holding more than half of the pronouns
      (`Unknown` otherwise, including no pronouns at all), the tone is
      `Formal` exactly when formal indicators outnumber casual ones, and the
      match flag compares the detected view with the target's first word. */
  lemma AnalyzeStyleSpec(text: string, targetTone: string, targetPov: string)
    requires !IsBlank(targetPov)
    ensures var r := AnalyzeStyle(text, targetTone, targetPov);
      && r.Some?
      && var a := r.value;
      var total := a.firstPersonCount + a.secondPersonCount + a.thirdPersonCount;
      && (a.detectedPov == "First Person" <==> 2 * a.firstPersonCount > total)
      && (a.detectedPov == "Second Person" <==> 2 * a.secondPersonCount > total)
      && (a.detectedPov == "Third Person" <==> 2 * a.thirdPersonCount > total)
      && (total == 0 ==> a.detectedPov == "Unknown")
      && (a.toneAssessment == "Formal" <==> a.formalIndicators > a.casualIndicators)
      && (a.formalIndicators == CountIn(ExtractWords(text), FormalWords))
      && (a.casualIndicators == CountIn(ExtractWords(text), CasualWords))
      && (a.povMatches <==> StartsWith(a.detectedPov, FirstToken(targetPov).value))
  {
  }

  /** With the default target "Third Limited", the match flag holds exactly
      when the detected view is "Third Person". */
  lemma DefaultPovMatches(text: string)
    ensures AnalyzeStyle(text).Some?
    ensures AnalyzeStyle(text).value.povMatches <==> AnalyzeStyle(text).value.detectedPov == "Third Person"
  {
    var t := "Third Limited";
    assert !IsSpace(t[0]);
    assert StripStart(t) == 0;
    assert IsSpace(t[5]);
    assert TokenEnd(t, 5) == 5;
    assert TokenEnd(t, 4) == 5;
    assert TokenEnd(t, 3) == 5;
    assert TokenEnd(t, 2) == 5;
    assert TokenEnd(t, 1) == 5;
    assert TokenEnd(t, 0) == 5;
    assert t[0..5] == "Third";
    assert FirstToken(t) == Some("Third");
  }

  // ---------------------------------------------------------------------
  // The whole analysis
  // ---------------------------------------------------------------------

  /** The integer and label fields of `analyze_text`'s result. */
  datatype Analysis = Analysis(
    wordCount: nat,
    characterCount: nat,
    characterCountNoSpaces: nat,
    sentenceCount: nat,
    paragraphCount: nat,
    uniqueWords: nat,
    complexityLevel: string,
    gradeLevel: string,
    repeatedWords: seq<WordCount>,
    longSentences: seq<LongSentence>,
    totalSyllables: nat)

  /** `_empty_analysis`. */
  const EmptyAnalysis := Analysis(0, 0, 0, 0, 0, 0, "N/A", "N/A", [], [], 0)

  /** The characters `replace` removes: space, line feed, tab. */
  predicate NotLayout(c: char) {
    c != ' ' && c != '\n' && c != '\t'
  }

  /** `analyze_text`, with the readability score (the Flesch formula) given
      as an input. */
  function AnalyzeText(text: string, readabilityScore: real): Analysis {
    if Strip(text) == [] then EmptyAnalysis
    else
      var words := ExtractWords(text);
      Analysis(
        CountWords(text),
        |text|,
        |Filter(text, NotLayout)|,
        CountSentences(text),
        CountParagraphs(text),
        |set w | w in words|,
        ComplexityLevel(readabilityScore),
        GradeLevel(readabilityScore),
        FindRepeatedWords(words),
        LongSentences(text, 25),
        TotalSyllables(words))
  }

  lemma {:induction false} FilterLength(s: string, keep: char -> bool)
    ensures |Filter(s, keep)| <= |s|
  {
    if s != [] {
      FilterLength(s[1..], keep);
    }
  }

  /** Empty or white-space-only text gives the all-zero analysis; any other
      text has at least one sentence and one paragraph, no more distinct
      words or syllable-free words than words, and at most as many
      non-layout characters as characters. */
  lemma AnalyzeTextSpec(text: string, readabilityScore: real)
    ensures IsBlank(text) ==> AnalyzeText(text, readabilityScore) == EmptyAnalysis
    ensures !IsBlank(text) ==>
      var a := AnalyzeText(text, readabilityScore);
      && a.wordCount == |ExtractWords(text)|
      && a.characterCount == |text|
      && a.characterCountNoSpaces <= a.characterCount
      && a.sentenceCount >= 1 && a.paragraphCount >= 1
      && a.uniqueWords <= a.wordCount
      && a.totalSyllables >= a.wordCount
      && |a.repeatedWords| <= 20 && |a.longSentences| <= 10
      && a.complexityLevel == ComplexityLevel(readabilityScore)
      && a.gradeLevel == GradeLevel(readabilityScore)
  {
    StripSpec(text);
    if !IsBlank(text) {
      ExtractWordsSpec(text);
      FilterLength(text, NotLayout);
      SetOfSeqBound(ExtractWords(text));
    }
  }
}
