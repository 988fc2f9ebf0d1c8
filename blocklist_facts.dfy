/**
 * Consequences of the blocklist endpoints that the handlers do not guard
 * against: a word given with white space around it, and a batch that repeats
 * a word, in the same or in another letter case.
 */
module BlocklistFacts {
  import opened Util
  import opened Http
  import opened BlocklistModel
  import opened BlocklistRoutes

  /**
   * A word given with white space around it escapes the existence check: with
   * "SPAM" listed, " spam" is added, and the blocklist then holds the same
   * word twice in two letter cases.
   */
  lemma SpacedWordListedTwice()
    ensures var r := AddWord([BlockedWord("SPAM", Custom, true)], " spam", None);
      r.Ok? && !NoDuplicates(r.value)
  {
    SpacedSpamTrims();
    SpamCases();
    TrimmedEscapesCheck("SPAM", " spam", None);
  }

  /** " spam" trims to "spam". */
  lemma SpacedSpamTrims()
    ensures Trim(" spam") == "spam"
  {
    SpamNoSpace();
    TrimLeadingSpace("spam");
    assert [' '] + "spam" == " spam";
  }

  /** A word with one leading blank trims to itself without it. */
  lemma TrimLeadingSpace(w: string)
    requires forall i :: 0 <= i < |w| ==> !IsSpace(w[i])
    ensures Trim([' '] + w) == w
  {
    assert ([' '] + w)[1..] == w;
    TrimWithoutSpace(w);
  }

  /**
   * A listed word and a longer word trimming to the same text in another
   * letter case: the longer one passes the existence check and is stored,
   * and the blocklist then lists the word twice.
   */
  lemma TrimmedEscapesCheck(listed: string, word: string, category: Option<WordCategory>)
    requires Trim(word) != "" && EqualsIgnoreCase(Trim(word), listed) && Trim(word) != listed
    requires |word| != |listed|
    ensures var r := AddWord([BlockedWord(listed, Custom, true)], word, category);
      r.Ok? && !NoDuplicates(r.value)
  {
    var blocklist := [BlockedWord(listed, Custom, true)];
    var r := AddWord(blocklist, word, category);
    assert r.Ok? by {
      assert !Listed(blocklist, word) by {
        assert |Lower(blocklist[0].word)| != |Lower(word)|;
      }
      assert !Stored(blocklist, Trim(word));
    }
    var s := r.value;
    assert EqualsIgnoreCase(s[0].word, s[1].word) by {
      assert s == blocklist + [NewBlockedWord(word, category)];
      assert s[0].word == listed && s[1].word == Trim(word);
    }
  }

  /**
   * A batch checks its words against the blocklist ignoring case, but not
   * against each other: two words that trim to the same text in two letter
   * cases are both stored, which adding one word at a time refuses.
   */
  lemma BatchMayListWordTwice(a: string, b: string)
    requires Trim(a) != "" && Trim(b) != "" && Trim(a) != Trim(b)
    requires EqualsIgnoreCase(Trim(a), Trim(b))
    ensures AddWords([], Some([a, b]), None).response == Ok(BatchAnswer(2, 0))
    ensures !NoDuplicates(AddWords([], Some([a, b]), None).blocklist)
  {
    PairOutcome(a, b);
    PairEntriesClash(a, b);
  }

  /** Two words whose trims differ are both stored in an empty blocklist. */
  lemma PairOutcome(a: string, b: string)
    requires Trim(a) != "" && Trim(b) != "" && Trim(a) != Trim(b)
    ensures AddWords([], Some([a, b]), None)
      == BatchOutcome(Ok(BatchAnswer(2, 0)), EntriesFor([a, b], None))
  {
    var entries := EntriesFor([a, b], None);
    EntriesOfPair(a, b);
    DistinctPairInserted(entries);
    EmptyBlocklistPair(a, b);
  }

  /** The entries for two words equal ignoring case are not free of duplicates. */
  lemma PairEntriesClash(a: string, b: string)
    requires EqualsIgnoreCase(Trim(a), Trim(b))
    ensures !NoDuplicates(EntriesFor([a, b], None))
  {
    var entries := EntriesFor([a, b], None);
    EntriesOfPair(a, b);
    assert EqualsIgnoreCase(entries[0].word, entries[1].word);
  }

  /** "spam" then "SPAM" in one batch: both are stored. */
  lemma SpamListedTwice()
    ensures var r := AddWords([], Some(["spam", "SPAM"]), None);
      r.response == Ok(BatchAnswer(2, 0)) && !NoDuplicates(r.blocklist)
  {
    SpamTrimmed();
    SpamCases();
    BatchMayListWordTwice("spam", "SPAM");
  }

  /** "spam" and "SPAM" are their own trims. */
  lemma SpamTrimmed()
    ensures Trim("spam") == "spam" && Trim("SPAM") == "SPAM"
  {
    SpamNoSpace();
    TrimWithoutSpace("spam");
    TrimWithoutSpace("SPAM");
  }

  /** "spam" and "SPAM" differ, but not ignoring case. */
  lemma SpamCases()
    ensures "spam" != "SPAM" && EqualsIgnoreCase("spam", "SPAM")
  {
    assert "spam"[0] != "SPAM"[0];
    SpamIgnoringCase();
  }

  /** The entries for a pair of words hold the two trimmed words. */
  lemma EntriesOfPair(a: string, b: string)
    ensures var entries := EntriesFor([a, b], None);
      |entries| == 2 && entries[0].word == Trim(a) && entries[1].word == Trim(b)
  {
  }

  /** Two entries with different words both go into an empty blocklist. */
  lemma DistinctPairInserted(entries: seq<BlockedWord>)
    requires |entries| == 2 && entries[0].word != entries[1].word
    ensures InsertBatch([], entries, 2) == BatchOutcome(Ok(BatchAnswer(2, 0)), entries)
  {
    assert WordsDistinct(entries);
    assert [] + entries == entries;
  }

  /** A batch of two valid words into an empty blocklist inserts both words' entries. */
  lemma EmptyBlocklistPair(a: string, b: string)
    requires Trim(a) != "" && Trim(b) != ""
    ensures AddWords([], Some([a, b]), None) == InsertBatch([], EntriesFor([a, b], None), 2)
  {
    ValidPair(a, b);
    NothingListedAllNew([a, b]);
  }

  /**
   * The same word given twice in one batch passes every check of the handler
   * but clashes in the unique index: the first copy is stored, and the
   * request fails.
   */
  lemma BatchRepeatedWordStoresFirstCopy(a: string)
    requires Trim(a) != ""
    ensures var r := AddWords([], Some([a, a]), None);
      r.response == Err(ServerError("Error adding words to blocklist"))
      && r.blocklist == [NewBlockedWord(a, None)]
  {
    var entries := EntriesFor([a, a], None);
    EntriesOfPair(a, a);
    ClashingPairStopsAtSecond(entries);
    EmptyBlocklistPair(a, a);
  }

  /** An ordered insert of two entries with the same word stores the first and stops at the second. */
  lemma ClashingPairStopsAtSecond(entries: seq<BlockedWord>)
    requires |entries| == 2 && entries[0].word == entries[1].word
    ensures InsertMany([], entries) == Insertion([entries[0]], false)
  {
    var e, f := entries[0], entries[1];
    assert entries == [e, f];
    assert !Stored([], e.word);
    assert [e, f][1..] == [f];
    assert [] + [e] == [e];
    assert InsertMany([], [e, f]) == InsertMany([] + [e], [f]);
    assert Stored([e], f.word) by {
      assert [e][0] == e;
    }
  }

  /** "spam" and "SPAM" hold no white space. */
  lemma SpamNoSpace()
    ensures forall i :: 0 <= i < |"spam"| ==> !IsSpace("spam"[i])
    ensures forall i :: 0 <= i < |"SPAM"| ==> !IsSpace("SPAM"[i])
  {
  }

  /** "spam" and "SPAM" spell the same word in two letter cases. */
  lemma SpamIgnoringCase()
    ensures EqualsIgnoreCase("spam", "SPAM")
  {
    var lo, up := Lower("spam"), Lower("SPAM");
    assert forall i :: 0 <= i < 4 ==> lo[i] == up[i];
  }
}
