/**
 * The blocklist: words that message scripts may not contain, and the check
 * that reports which of them a text contains.
 *
 * A blocked word is matched as a whole word, ignoring case: an occurrence
 * counts only where it starts and ends at a word boundary, as `\bword\b` with
 * the `i` flag decides. Words are matched literally.
 */
module BlocklistModel {
  import opened Util

  datatype WordCategory = Profanity | Spam | Illegal | Custom

  datatype BlockedWord = BlockedWord(word: string, category: WordCategory, isActive: bool)

  /**
   * A new entry: the word trimmed of surrounding white space (the schema's
   * `trim` option), category custom unless given, and active.
   */
  function NewBlockedWord(word: string, category: Option<WordCategory>): (b: BlockedWord)
    ensures b.word == Trim(word) && b.isActive
    ensures b.category == (if category.Some? then category.value else Custom)
  {
    BlockedWord(Trim(word), if category.Some? then category.value else Custom, true)
  }

  /** The characters `\w` matches. */
  predicate IsWordChar(c: char)
  {
    'a' <= c <= 'z' || 'A' <= c <= 'Z' || '0' <= c <= '9' || c == '_'
  }

  /** `\b` at position p: a word character on exactly one side of p. */
  predicate BoundaryAt(text: string, p: int)
    requires 0 <= p <= |text|
  {
    (p > 0 && IsWordChar(text[p - 1])) != (p < |text| && IsWordChar(text[p]))
  }

  /** The word occurs at index i, ignoring case, between two word boundaries. */
  predicate MatchesAt(text: string, word: string, i: int)
  {
    0 <= i && i + |word| <= |text| && WordAt(text, word, i)
  }

  /** The text from index i spells the word, ignoring case, between two word boundaries. */
  predicate WordAt(text: string, word: string, i: nat)
    requires i + |word| <= |text|
  {
    EqualsIgnoreCase(text[i..i + |word|], word) && BoundaryAt(text, i) && BoundaryAt(text, i + |word|)
  }

  /** `new RegExp('\\b' + word + '\\b', 'i').test(text)` */
  predicate Matches(text: string, word: string)
  {
    exists i | 0 <= i <= |text| - |word| :: MatchesAt(text, word, i)
  }

  /** The words of the active entries that occur in the text, in blocklist order. */
  function FoundWords(text: string, blocklist: seq<BlockedWord>): (found: seq<string>)
    ensures |found| <= |blocklist|
  {
    if blocklist == [] then []
    else
      var rest := FoundWords(text, blocklist[..|blocklist| - 1]);
      var b := blocklist[|blocklist| - 1];
      if b.isActive && Matches(text, b.word) then rest + [b.word] else rest
  }

  /** A word is reported exactly when an active entry holds it and it occurs in the text. */
  lemma {:induction false} FoundWordsMembers(text: string, blocklist: seq<BlockedWord>, w: string)
    ensures w in FoundWords(text, blocklist) <==>
      (exists i :: 0 <= i < |blocklist| && blocklist[i].word == w && blocklist[i].isActive)
      && Matches(text, w)
  {
    if blocklist != [] {
      var init := blocklist[..|blocklist| - 1];
      FoundWordsMembers(text, init, w);
      if exists i :: 0 <= i < |init| && init[i].word == w && init[i].isActive {
        var i :| 0 <= i < |init| && init[i].word == w && init[i].isActive;
        assert blocklist[i] == init[i];
      }
      if exists i :: 0 <= i < |blocklist| && blocklist[i].word == w && blocklist[i].isActive {
        var i :| 0 <= i < |blocklist| && blocklist[i].word == w && blocklist[i].isActive;
        if i < |init| { assert init[i] == blocklist[i]; }
      }
    }
  }

  /** Entries hold distinct words (the word is a unique key). */
  predicate UniqueWords(blocklist: seq<BlockedWord>)
  {
    forall i, j :: 0 <= i < j < |blocklist| ==> blocklist[i].word != blocklist[j].word
  }

  /** With unique entries, each word is reported at most once. */
  lemma {:induction false} FoundWordsDistinct(text: string, blocklist: seq<BlockedWord>)
    requires UniqueWords(blocklist)
    ensures forall i, j :: 0 <= i < j < |FoundWords(text, blocklist)| ==>
      FoundWords(text, blocklist)[i] != FoundWords(text, blocklist)[j]
  {
    if blocklist != [] {
      var init := blocklist[..|blocklist| - 1];
      var b := blocklist[|blocklist| - 1];
      FoundWordsDistinct(text, init);
      FoundWordsMembers(text, init, b.word);
      assert b.word !in FoundWords(text, init) by {
        forall i | 0 <= i < |init| ensures init[i].word != b.word {
          assert init[i] == blocklist[i];
        }
      }
    }
  }

  /**
   * Blocklist.containsBlockedWords: falsy text contains nothing; otherwise
   * the active words found in it, in blocklist order, and `contains` tells
   * whether there are any.
   */
  method ContainsBlockedWords(text: string, blocklist: seq<BlockedWord>) returns (contains: bool, words: seq<string>)
    ensures text == "" ==> !contains && words == []
    ensures text != "" ==> words == FoundWords(text, blocklist)
    ensures contains <==> |words| > 0
  {
    if text == "" {
      return false, [];
    }
    words := [];
    var i := 0;
    while i < |blocklist|
      invariant 0 <= i <= |blocklist|
      invariant words == FoundWords(text, blocklist[..i])
    {
      assert blocklist[..i + 1][..i] == blocklist[..i];
      if blocklist[i].isActive && Matches(text, blocklist[i].word) {
        words := words + [blocklist[i].word];
      }
      i := i + 1;
    }
    assert blocklist[..i] == blocklist;
    contains := |words| > 0;
  }

  /** Matching ignores case in both the text and the word. */
  lemma MatchesIgnoresCase(text: string, word: string)
    ensures Matches(text, word) <==> Matches(text, Lower(word))
  {
    forall i | 0 <= i <= |text| - |word|
      ensures MatchesAt(text, word, i) <==> MatchesAt(text, Lower(word), i)
    {
      MatchesAtLower(text, word, i);
    }
  }

  /** At one position, the word matches exactly when its lower-case form does. */
  lemma MatchesAtLower(text: string, word: string, i: int)
    ensures MatchesAt(text, word, i) <==> MatchesAt(text, Lower(word), i)
  {
    var lw := Lower(word);
    if 0 <= i && i + |word| <= |text| {
      var a := text[i..i + |word|];
      EqualsIgnoreCaseLower(a, word);
      assert |lw| == |word|;
      assert text[i..i + |lw|] == a;
      assert WordAt(text, word, i) <==> WordAt(text, lw, i);
    } else {
      assert |lw| == |word|;
      assert !MatchesAt(text, word, i);
      assert !MatchesAt(text, lw, i);
    }
  }

  /** Comparing with a word ignoring case is comparing with its lower-case form. */
  lemma EqualsIgnoreCaseLower(a: string, w: string)
    ensures EqualsIgnoreCase(a, w) <==> EqualsIgnoreCase(a, Lower(w))
  {
    LowerIdempotent(w);
  }

  lemma LowerIdempotent(s: string)
    ensures Lower(Lower(s)) == Lower(s)
  {
    assert forall i :: 0 <= i < |s| ==> LowerChar(LowerChar(s[i])) == LowerChar(s[i]);
  }

  /** A word inside a longer word does not match: "ass" is not found in "class". */
  lemma WholeWordsOnly()
    ensures !Matches("class", "ass")
    ensures Matches("free money now", "MONEY")
  {
    var t := "class";
    assert !MatchesAt(t, "ass", 0) by { assert Lower(t[0..3])[0] == 'c'; }
    assert !MatchesAt(t, "ass", 1) by { assert Lower(t[1..4])[0] == 'l'; }
    assert !MatchesAt(t, "ass", 2) by { assert !BoundaryAt(t, 2); }
    var m := "free money now";
    assert m[5..10] == "money";
    assert Lower(m[5..10]) == Lower("MONEY");
    assert MatchesAt(m, "MONEY", 5);
  }
}
