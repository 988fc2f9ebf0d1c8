/**
 * The blocklist administration endpoints: adding one word, refused when the
 * word is already listed in any letter case, and adding a batch of words,
 * which keeps the non-blank ones not yet listed.
 *
 * An entry "exists" for a word when its text equals the word ignoring case,
 * as the anchored case-insensitive regular expression `^word$` decides for
 * a word without special characters.
 */
module BlocklistRoutes {
  import opened Util
  import opened Http
  import opened BlocklistModel

  /** Some entry of the blocklist spells the word, ignoring case. */
  predicate Listed(blocklist: seq<BlockedWord>, word: string)
  {
    exists i :: 0 <= i < |blocklist| && EqualsIgnoreCase(blocklist[i].word, word)
  }

  /** No two entries spell the same word, ignoring case. */
  predicate NoDuplicates(blocklist: seq<BlockedWord>)
  {
    forall i, j :: 0 <= i < j < |blocklist| ==> !EqualsIgnoreCase(blocklist[i].word, blocklist[j].word)
  }

  // ---------------------------------------------------------------------------
  // One word
  // ---------------------------------------------------------------------------

  /** Some entry holds exactly this text: the unique index on the word refuses a second one. */
  predicate Stored(blocklist: seq<BlockedWord>, word: string)
  {
    exists i :: 0 <= i < |blocklist| && blocklist[i].word == word
  }

  /**
   * POST /blocklist: the word is required and must not be listed yet in any
   * letter case. The entry saved holds the word trimmed; saving fails, as a
   * server error, when the trimmed word is empty (it is required) or is
   * already stored exactly (it is unique). Otherwise the new entry is active,
   * in the category given or custom.
   */
  function AddWord(blocklist: seq<BlockedWord>, word: string, category: Option<WordCategory>)
    : (r: Result<seq<BlockedWord>>)
    ensures word == "" ==> r == Err(BadRequest("Word is required"))
    ensures word != "" && Listed(blocklist, word) ==> r == Err(BadRequest("Word is already in the blocklist"))
    ensures word != "" && !Listed(blocklist, word) && (Trim(word) == "" || Stored(blocklist, Trim(word))) ==>
      r == Err(ServerError("Error adding word to blocklist"))
    ensures r.Ok? <==> word != "" && !Listed(blocklist, word) && Trim(word) != "" && !Stored(blocklist, Trim(word))
    ensures r.Ok? ==> r.value == blocklist + [NewBlockedWord(word, category)]
  {
    if word == "" then Err(BadRequest("Word is required"))
    else if Listed(blocklist, word) then Err(BadRequest("Word is already in the blocklist"))
    else
      var entry := NewBlockedWord(word, category);
      if entry.word == "" || Stored(blocklist, entry.word) then Err(ServerError("Error adding word to blocklist"))
      else Ok(blocklist + [entry])
  }

  /**
   * Adding one word keeps the blocklist free of words listed twice exactly
   * when the trimmed word is not listed yet. The existence check looks at the
   * word as given, so that holds whenever the word has no surrounding white
   * space, and may fail otherwise.
   */
  lemma AddWordKeepsNoDuplicates(blocklist: seq<BlockedWord>, word: string, category: Option<WordCategory>)
    requires NoDuplicates(blocklist)
    ensures AddWord(blocklist, word, category).Ok? ==>
      (NoDuplicates(AddWord(blocklist, word, category).value) <==> !Listed(blocklist, Trim(word)))
    ensures AddWord(blocklist, word, category).Ok? && Trim(word) == word ==>
      NoDuplicates(AddWord(blocklist, word, category).value)
  {
    var r := AddWord(blocklist, word, category);
    if r.Ok? {
      var s := r.value;
      var t := Trim(word);
      assert s[|blocklist|].word == t;
      if Listed(blocklist, t) {
        var i :| 0 <= i < |blocklist| && EqualsIgnoreCase(blocklist[i].word, t);
        assert s[i] == blocklist[i];
      } else {
        forall i, j | 0 <= i < j < |s| ensures !EqualsIgnoreCase(s[i].word, s[j].word) {
          if j == |blocklist| {
            assert s[i] == blocklist[i];
          } else {
            assert s[i] == blocklist[i] && s[j] == blocklist[j];
          }
        }
      }
    }
  }

  // ---------------------------------------------------------------------------
  // A batch of words
  // ---------------------------------------------------------------------------

  /** The words that are neither empty nor only white space, in input order. */
  function ValidWords(words: seq<string>): (r: seq<string>)
    ensures |r| <= |words|
    ensures forall w :: w in r <==> w in words && Trim(w) != ""
  {
    if words == [] then []
    else
      var init := ValidWords(words[..|words| - 1]);
      var w := words[|words| - 1];
      assert words == words[..|words| - 1] + [w];
      if w != "" && Trim(w) != "" then init + [w] else init
  }

  /**
   * `existingWordsSet`: the lower-cased texts of the entries that spell one
   * of the valid words, ignoring case.
   */
  function ExistingLower(blocklist: seq<BlockedWord>, valid: seq<string>): set<string>
  {
    set i, v | 0 <= i < |blocklist| && v in valid && EqualsIgnoreCase(blocklist[i].word, v) :: Lower(blocklist[i].word)
  }

  /** A valid word is in the existing set exactly when it is listed. */
  lemma ExistingLowerIsListed(blocklist: seq<BlockedWord>, valid: seq<string>, w: string)
    requires w in valid
    ensures Lower(w) in ExistingLower(blocklist, valid) <==> Listed(blocklist, w)
  {
    if Listed(blocklist, w) {
      var i :| 0 <= i < |blocklist| && EqualsIgnoreCase(blocklist[i].word, w);
      assert Lower(blocklist[i].word) in ExistingLower(blocklist, valid);
    }
  }

  /** The valid words whose lower-cased form is not in the existing set, in input order. */
  function NewWords(valid: seq<string>, existing: set<string>): (r: seq<string>)
    ensures |r| <= |valid|
    ensures forall w :: w in r <==> w in valid && Lower(w) !in existing
  {
    if valid == [] then []
    else
      var init := NewWords(valid[..|valid| - 1], existing);
      var w := valid[|valid| - 1];
      assert valid == valid[..|valid| - 1] + [w];
      if Lower(w) !in existing then init + [w] else init
  }

  /** The words of a batch that are valid and not listed yet, in input order. */
  function BatchNewWords(blocklist: seq<BlockedWord>, words: seq<string>): (r: seq<string>)
    ensures |r| <= |words|
  {
    var valid := ValidWords(words);
    NewWords(valid, ExistingLower(blocklist, valid))
  }

  /** A word is new in a batch exactly when it is given, not blank, and not listed in any letter case. */
  lemma BatchNewWordsMembers(blocklist: seq<BlockedWord>, words: seq<string>, w: string)
    ensures w in BatchNewWords(blocklist, words) <==> w in words && Trim(w) != "" && !Listed(blocklist, w)
  {
    var valid := ValidWords(words);
    if w in valid {
      ExistingLowerIsListed(blocklist, valid, w);
    }
  }

  /** The entries a batch stores: one active entry per new word, trimmed, in the category given or custom. */
  function EntriesFor(words: seq<string>, category: Option<WordCategory>): (r: seq<BlockedWord>)
    ensures |r| == |words|
    ensures forall k :: 0 <= k < |r| ==> r[k] == NewBlockedWord(words[k], category) && r[k].word == Trim(words[k])
  {
    seq(|words|, k requires 0 <= k < |words| => NewBlockedWord(words[k], category))
  }

  /** What an ordered insertMany leaves: the blocklist after it, and whether every entry went in. */
  datatype Insertion = Insertion(blocklist: seq<BlockedWord>, complete: bool)

  /**
   * `insertMany`, ordered, under the unique index on the word: the entries go
   * in one by one until one whose word is already stored exactly; that entry
   * and those after it are not inserted, and the call fails.
   */
  function InsertMany(blocklist: seq<BlockedWord>, entries: seq<BlockedWord>): (r: Insertion)
    ensures |blocklist| <= |r.blocklist| <= |blocklist| + |entries|
    ensures r.blocklist == blocklist + entries[..|r.blocklist| - |blocklist|]
    ensures r.complete <==> |r.blocklist| == |blocklist| + |entries|
    decreases |entries|
  {
    if entries == [] then Insertion(blocklist, true)
    else if Stored(blocklist, entries[0].word) then Insertion(blocklist, false)
    else
      var rest := InsertMany(blocklist + [entries[0]], entries[1..]);
      assert entries[..|rest.blocklist| - |blocklist|]
          == [entries[0]] + entries[1..][..|rest.blocklist| - |blocklist| - 1];
      rest
  }

  /** No entry's word is stored exactly in the blocklist. */
  predicate NoneStored(blocklist: seq<BlockedWord>, entries: seq<BlockedWord>)
  {
    forall k :: 0 <= k < |entries| ==> !Stored(blocklist, entries[k].word)
  }

  /** No two entries hold exactly the same word. */
  predicate WordsDistinct(entries: seq<BlockedWord>)
  {
    forall i, j :: 0 <= i < j < |entries| ==> entries[i].word != entries[j].word
  }

  /**
   * The ordered insert stores every entry exactly when no entry clashes with
   * a stored word or with another entry of the same batch.
   */
  lemma {:induction false} InsertManyCompleteIff(blocklist: seq<BlockedWord>, entries: seq<BlockedWord>)
    ensures InsertMany(blocklist, entries).complete <==> NoneStored(blocklist, entries) && WordsDistinct(entries)
    decreases |entries|
  {
    if entries != [] {
      var e, rest := entries[0], entries[1..];
      var grown := blocklist + [e];
      InsertManyCompleteIff(grown, rest);
      assert forall w :: Stored(grown, w) <==> Stored(blocklist, w) || w == e.word by {
        forall w ensures Stored(grown, w) <==> Stored(blocklist, w) || w == e.word {
          if Stored(blocklist, w) {
            var i :| 0 <= i < |blocklist| && blocklist[i].word == w;
            assert grown[i] == blocklist[i];
          }
          if w == e.word {
            assert grown[|blocklist|] == e;
          }
        }
      }
      if NoneStored(blocklist, entries) && WordsDistinct(entries) {
        assert !Stored(blocklist, entries[0].word);
        forall k | 0 <= k < |rest| ensures !Stored(grown, rest[k].word) {
          assert rest[k] == entries[k + 1];
        }
        forall i, j | 0 <= i < j < |rest| ensures rest[i].word != rest[j].word {
          assert rest[i] == entries[i + 1] && rest[j] == entries[j + 1];
        }
      }
      if InsertMany(blocklist, entries).complete {
        assert !Stored(blocklist, e.word);
        assert NoneStored(grown, rest) && WordsDistinct(rest);
        forall k | 0 <= k < |entries| ensures !Stored(blocklist, entries[k].word) {
          if k > 0 {
            assert entries[k] == rest[k - 1];
          }
        }
        forall i, j | 0 <= i < j < |entries| ensures entries[i].word != entries[j].word {
          assert entries[j] == rest[j - 1];
          if i > 0 {
            assert entries[i] == rest[i - 1];
          }
        }
      }
    }
  }

  /** The response of a batch request that gets through. */
  datatype BatchAnswer = BatchAnswer(added: nat, skipped: int)

  /** A batch request's response and the blocklist after it. */
  datatype BatchOutcome = BatchOutcome(response: Result<BatchAnswer>, blocklist: seq<BlockedWord>)

  /**
   * POST /blocklist/batch. `words` is None when the body's words are missing
   * or not an array. Refused when there are no words, no valid words, or no
   * valid word that is not listed yet. Otherwise the entries for the new
   * words are inserted in order; when one clashes with a stored word (or an
   * earlier entry of the batch) the insert stops there, the entries before
   * it stay stored, and the request fails. When all go in, the answer counts
   * them as added and the other valid words as skipped.
   */
  function AddWords(blocklist: seq<BlockedWord>, words: Option<seq<string>>, category: Option<WordCategory>)
    : (r: BatchOutcome)
    ensures words.None? || words == Some([]) ==>
      r == BatchOutcome(Err(BadRequest("Words array is required")), blocklist)
    ensures words.Some? && words.value != [] && ValidWords(words.value) == [] ==>
      r == BatchOutcome(Err(BadRequest("No valid words provided")), blocklist)
    ensures words.Some? && ValidWords(words.value) != [] && BatchNewWords(blocklist, words.value) == [] ==>
      r == BatchOutcome(Err(BadRequest("All words already exist in the blocklist")), blocklist)
    ensures words.Some? && BatchNewWords(blocklist, words.value) != [] ==>
      r == InsertBatch(blocklist, EntriesFor(BatchNewWords(blocklist, words.value), category),
                       |ValidWords(words.value)|)
    ensures r.response.Ok? <==>
      words.Some? && BatchNewWords(blocklist, words.value) != []
      && NoneStored(blocklist, EntriesFor(BatchNewWords(blocklist, words.value), category))
      && WordsDistinct(EntriesFor(BatchNewWords(blocklist, words.value), category))
    ensures r.response.Ok? ==>
      var newWords := BatchNewWords(blocklist, words.value);
      r.response.value == BatchAnswer(|newWords|, |ValidWords(words.value)| - |newWords|)
      && r.blocklist == blocklist + EntriesFor(newWords, category)
  {
    if words.None? || words.value == [] then BatchOutcome(Err(BadRequest("Words array is required")), blocklist)
    else
      var valid := ValidWords(words.value);
      if valid == [] then BatchOutcome(Err(BadRequest("No valid words provided")), blocklist)
      else
        var newWords := BatchNewWords(blocklist, words.value);
        if newWords == [] then BatchOutcome(Err(BadRequest("All words already exist in the blocklist")), blocklist)
        else InsertBatch(blocklist, EntriesFor(newWords, category), |valid|)
  }

  /** The insert of a batch's entries and the answer: added and skipped out of `validCount` valid words. */
  function InsertBatch(blocklist: seq<BlockedWord>, entries: seq<BlockedWord>, validCount: nat): (r: BatchOutcome)
    ensures |blocklist| <= |r.blocklist| <= |blocklist| + |entries|
    ensures r.blocklist == blocklist + entries[..|r.blocklist| - |blocklist|]
    ensures r.response.Ok? <==> NoneStored(blocklist, entries) && WordsDistinct(entries)
    ensures r.response.Ok? ==>
      r.response.value == BatchAnswer(|entries|, validCount - |entries|) && r.blocklist == blocklist + entries
    ensures r.response.Err? ==>
      r.response == Err(ServerError("Error adding words to blocklist")) && |r.blocklist| < |blocklist| + |entries|
  {
    var inserted := InsertMany(blocklist, entries);
    InsertManyCompleteIff(blocklist, entries);
    if !inserted.complete then
      BatchOutcome(Err(ServerError("Error adding words to blocklist")), inserted.blocklist)
    else
      assert entries[..|entries|] == entries;
      BatchOutcome(Ok(BatchAnswer(|entries|, validCount - |entries|)), inserted.blocklist)
  }

  /** A valid word at the end of a batch is kept at the end. */
  lemma ValidWordsSnoc(words: seq<string>, w: string)
    requires Trim(w) != ""
    ensures ValidWords(words + [w]) == ValidWords(words) + [w]
  {
    assert (words + [w])[..|words|] == words;
  }

  /** A batch of two valid words keeps both. */
  lemma ValidPair(a: string, b: string)
    requires Trim(a) != "" && Trim(b) != ""
    ensures ValidWords([a, b]) == [a, b]
  {
    ValidWordsSnoc([], a);
    assert [] + [a] == [a];
    ValidWordsSnoc([a], b);
    assert [a] + [b] == [a, b];
  }

  /** With nothing listed, every valid word is new. */
  lemma NothingListedAllNew(valid: seq<string>)
    ensures NewWords(valid, ExistingLower([], valid)) == valid
  {
    assert ExistingLower([], valid) == {};
    NewWordsOfEmpty(valid);
  }

  lemma {:induction false} NewWordsOfEmpty(valid: seq<string>)
    ensures NewWords(valid, {}) == valid
  {
    if valid != [] {
      NewWordsOfEmpty(valid[..|valid| - 1]);
    }
  }
}
