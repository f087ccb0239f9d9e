/** `create_csv_file` of the dataset package: reads the word list row by
    row, skips the header row, looks each word up, renders its card and
    writes `[word, html, tags]`, where the tags come from the parts of
    speech of every entry of every dictionary. */
module DatasetCsv {
  import opened Wrappers
  import opened Text

  /** What an entry holds under `'part_of_speech'`, as far as the `in` test is
      concerned: a text, or something the test raises on (a missing key, `None`). */
  datatype PartOfSpeech = PosText(text: string) | PosUnusable

  /** `word_data.items()` as the tag loop sees it: each dictionary title with
      the parts of speech of its entries, in dictionary order. */
  type WordData = seq<(string, seq<PartOfSpeech>)>

  const Adjective := "adjective"
  const Adverb := "adverb"
  const Verb := "verb"

  /** The tag names, in the order the checks run. */
  const TagNames := [Adjective, Adverb, Verb]

  /** The first row written. */
  const Header := ["word", "meaning", "tags"]

  /** The tags one entry contributes: each name whose text occurs in the part
      of speech, in the order adjective, adverb, verb; nothing when the test raises. */
  function EntryTags(pos: PartOfSpeech): seq<string> {
    match pos
    case PosUnusable => []
    case PosText(s) =>
      (if Contains(s, Adjective) then [Adjective] else [])
      + (if Contains(s, Adverb) then [Adverb] else [])
      + (if Contains(s, Verb) then [Verb] else [])
  }

  /** Position of a tag name in `TagNames`. */
  function Rank(t: string): nat {
    if t == Adjective then 0 else if t == Adverb then 1 else 2
  }

  /** An entry's tags are exactly the names found in its part of speech, each
      at most once, in the order adjective, adverb, verb. */
  lemma EntryTagsMeaning(pos: PartOfSpeech)
    ensures forall t :: t in EntryTags(pos) <==> t in TagNames && pos.PosText? && Contains(pos.text, t)
    ensures forall i, j | 0 <= i < j < |EntryTags(pos)| :: Rank(EntryTags(pos)[i]) < Rank(EntryTags(pos)[j])
    ensures |EntryTags(pos)| <= 3
  {
  }

  /** `'verb' in 'adverb'`: a part of speech naming an adverb is tagged verb too. */
  lemma AdverbIsAlsoVerb(s: string)
    requires Contains(s, Adverb)
    ensures Adverb in EntryTags(PosText(s)) && Verb in EntryTags(PosText(s))
  {
    assert Verb <= Adverb[2..];
    ContainsTransitive(s, Adverb, Verb);
  }

  /** The tags of a list of entries, in order, duplicates kept. */
  function EntriesTags(entries: seq<PartOfSpeech>): seq<string> {
    if entries == [] then []
    else EntriesTags(entries[..|entries| - 1]) + EntryTags(entries[|entries| - 1])
  }

  /** The tags of every entry of every dictionary, in order, duplicates kept. */
  function AllTags(wordData: WordData): seq<string> {
    if wordData == [] then []
    else AllTags(wordData[..|wordData| - 1]) + EntriesTags(wordData[|wordData| - 1].1)
  }

  /** The body of the `try`: the three checks on one entry, appending to `tags`. */
  method AppendEntryTags(tags: seq<string>, pos: PartOfSpeech) returns (r: seq<string>)
    ensures r == tags + EntryTags(pos)
  {
    r := tags;
    match pos
    case PosUnusable =>
    case PosText(s) =>
      if Contains(s, Adjective) {
        r := r + [Adjective];
      }
      if Contains(s, Adverb) {
        r := r + [Adverb];
      }
      if Contains(s, Verb) {
        r := r + [Verb];
      }
  }

  /** The inner loop: appends the tags of each entry of one dictionary. */
  method AppendEntriesTags(tags: seq<string>, entries: seq<PartOfSpeech>) returns (r: seq<string>)
    ensures r == tags + EntriesTags(entries)
  {
    r := tags;
    for j := 0 to |entries|
      invariant r == tags + EntriesTags(entries[..j])
    {
      EntriesTagsSnoc(entries, j);
      r := AppendEntryTags(r, entries[j]);
      AppendTagsAssoc(tags, EntriesTags(entries[..j]), EntryTags(entries[j]));
    }
    assert entries[..|entries|] == entries;
  }

  /** One more entry of a prefix adds that entry's tags. */
  lemma EntriesTagsSnoc(entries: seq<PartOfSpeech>, j: nat)
    requires j < |entries|
    ensures EntriesTags(entries[..j + 1]) == EntriesTags(entries[..j]) + EntryTags(entries[j])
  {
    assert entries[..j + 1][..j] == entries[..j];
  }

  lemma AppendTagsAssoc(a: seq<string>, b: seq<string>, c: seq<string>)
    ensures a + b + c == a + (b + c)
  {
  }

  /** The tag loop: appends the tags of each entry of each dictionary. */
  method DeriveTags(wordData: WordData) returns (tags: seq<string>)
    ensures tags == AllTags(wordData)
  {
    tags := [];
    for i := 0 to |wordData|
      invariant tags == AllTags(wordData[..i])
    {
      assert wordData[..i + 1][..i] == wordData[..i];
      tags := AppendEntriesTags(tags, wordData[i].1);
    }
    assert wordData[..|wordData|] == wordData;
  }

  /** Number of entries of a list whose part of speech yields tag `t`. */
  function EntriesMentioning(entries: seq<PartOfSpeech>, t: string): nat {
    if entries == [] then 0
    else EntriesMentioning(entries[..|entries| - 1], t) + (if t in EntryTags(entries[|entries| - 1]) then 1 else 0)
  }

  /** Number of entries of all dictionaries whose part of speech yields tag `t`. */
  function Mentioning(wordData: WordData, t: string): nat {
    if wordData == [] then 0
    else Mentioning(wordData[..|wordData| - 1], t) + EntriesMentioning(wordData[|wordData| - 1].1, t)
  }

  lemma EntryTagsOnce(pos: PartOfSpeech, t: string)
    ensures multiset(EntryTags(pos))[t] == if t in EntryTags(pos) then 1 else 0
  {
    EntryTagsMeaning(pos);
  }

  lemma {:induction false} EntriesTagsCount(entries: seq<PartOfSpeech>, t: string)
    ensures multiset(EntriesTags(entries))[t] == EntriesMentioning(entries, t)
    decreases |entries|
  {
    if entries != [] {
      EntriesTagsCount(entries[..|entries| - 1], t);
      EntryTagsOnce(entries[|entries| - 1], t);
    }
  }

  /** Duplicates are kept: each tag occurs in the cell once per entry, in any
      dictionary, whose part of speech yields it. */
  lemma {:induction false} AllTagsCount(wordData: WordData, t: string)
    ensures multiset(AllTags(wordData))[t] == Mentioning(wordData, t)
    decreases |wordData|
  {
    if wordData != [] {
      AllTagsCount(wordData[..|wordData| - 1], t);
      EntriesTagsCount(wordData[|wordData| - 1].1, t);
    }
  }

  /** Every tag written is one of the three names, none of which holds a comma. */
  lemma {:induction false} AllTagsAreNames(wordData: WordData)
    ensures forall i | 0 <= i < |AllTags(wordData)| :: AllTags(wordData)[i] in TagNames
    decreases |wordData|
  {
    if wordData != [] {
      AllTagsAreNames(wordData[..|wordData| - 1]);
      EntriesTagsAreNames(wordData[|wordData| - 1].1);
    }
  }

  lemma {:induction false} EntriesTagsAreNames(entries: seq<PartOfSpeech>)
    ensures forall i | 0 <= i < |EntriesTags(entries)| :: EntriesTags(entries)[i] in TagNames
    decreases |entries|
  {
    if entries != [] {
      EntriesTagsAreNames(entries[..|entries| - 1]);
      EntryTagsMeaning(entries[|entries| - 1]);
    }
  }

  /** A fetch guarded by a flag and wrapped in `try: ... except Exception: None`. */
  function Optional<T>(flag: bool, fetched: Outcome<T>): (r: Option<T>)
    ensures r.Some? <==> flag && fetched.Returned?
    ensures r.Some? ==> r.value == fetched.value
  {
    if flag && fetched.Returned? then Some(fetched.value) else None
  }

  /** The two flags of `create_csv_file` and the calls it makes that are not
      part of this model: the dictionary lookup, the two optional fetches and
      the card renderer, which may raise as well. */
  datatype Calls<!C, !S> = Calls(
    hasCollocations: bool,
    hasSynonyms: bool,
    meanings: string -> Outcome<WordData>,
    collocations: string -> Outcome<C>,
    synonyms: string -> Outcome<S>,
    render: (WordData, Option<C>, Option<S>) -> Outcome<string>)

  /** The row written for a word whose lookup returned `wordData`, or
      `Raised` when the renderer raises. */
  function OutputRow<C, S>(word: string, wordData: WordData, calls: Calls<C, S>): Outcome<seq<string>> {
    var rendered := calls.render(wordData,
      Optional(calls.hasCollocations, calls.collocations(word)),
      Optional(calls.hasSynonyms, calls.synonyms(word)));
    match rendered
    case Raised => Raised
    case Returned(html) => Returned([word, html, Join(AllTags(wordData), ',')])
  }

  /** A fetch whose flag is off is never looked at: replacing the function
      behind it changes no output row. */
  lemma FlagOffIgnoresFetch<C, S>(word: string, wordData: WordData, calls: Calls<C, S>,
                                  otherCollocations: string -> Outcome<C>, otherSynonyms: string -> Outcome<S>)
    ensures !calls.hasCollocations ==>
      OutputRow(word, wordData, calls.(collocations := otherCollocations)) == OutputRow(word, wordData, calls)
    ensures !calls.hasSynonyms ==>
      OutputRow(word, wordData, calls.(synonyms := otherSynonyms)) == OutputRow(word, wordData, calls)
  {
  }

  /** The rows written so far, and whether the run is still going (it stops
      for good at the first exception that escapes the loop). */
  datatype CsvRun = CsvRun(written: seq<seq<string>>, alive: bool)

  /** One input row: a blank row has no first cell and `row[0]` raises; the
      header row is skipped; a lookup or a rendering that raises ends the
      run; every other row yields one output row. */
  function Step<C, S>(run: CsvRun, row: seq<string>, calls: Calls<C, S>): CsvRun {
    if row == [] then CsvRun(run.written, false)
    else if row[0] == "word" then run
    else
      match calls.meanings(row[0])
      case Raised => CsvRun(run.written, false)
      case Returned(wordData) =>
        match OutputRow(row[0], wordData, calls)
        case Raised => CsvRun(run.written, false)
        case Returned(out) => CsvRun(run.written + [out], true)
  }

  /** The whole run over the input rows. */
  function Run<C, S>(rows: seq<seq<string>>, calls: Calls<C, S>): CsvRun {
    if rows == [] then CsvRun([Header], true)
    else
      var before := Run(rows[..|rows| - 1], calls);
      if !before.alive then before else Step(before, rows[|rows| - 1], calls)
  }

  /** Once an exception has escaped, later rows change nothing. */
  lemma {:induction false} StoppedRunStays<C, S>(rows: seq<seq<string>>, k: nat, calls: Calls<C, S>)
    requires k <= |rows|
    requires !Run(rows[..k], calls).alive
    ensures Run(rows, calls) == Run(rows[..k], calls)
    decreases |rows| - k
  {
    if k < |rows| {
      assert rows[..k + 1][..k] == rows[..k];
      StoppedRunStays(rows, k + 1, calls);
    } else {
      assert rows[..k] == rows;
    }
  }

  /** The row loop; `completed` is false when an exception ended it early,
      in which case the rows written before it stay written. */
  method CreateCsvFile<C, S>(rows: seq<seq<string>>, calls: Calls<C, S>)
    returns (written: seq<seq<string>>, completed: bool)
    ensures CsvRun(written, completed) == Run(rows, calls)
  {
    written := [Header];
    completed := true;
    for i := 0 to |rows|
      invariant CsvRun(written, true) == Run(rows[..i], calls)
    {
      assert rows[..i + 1][..i] == rows[..i];
      var row := rows[i];
      if row == [] {
        completed := false;
        StoppedRunStays(rows, i + 1, calls);
        return;
      }
      var word := row[0];
      if word == "word" {
        continue;
      }
      var lookup := calls.meanings(word);
      if lookup.Raised? {
        completed := false;
        StoppedRunStays(rows, i + 1, calls);
        return;
      }
      var wordData := lookup.value;
      var collocations: Option<C> := None;
      var synonyms: Option<S> := None;
      if calls.hasCollocations {
        var fetched := calls.collocations(word);
        if fetched.Returned? {
          collocations := Some(fetched.value);
        }
      }
      if calls.hasSynonyms {
        var fetched := calls.synonyms(word);
        if fetched.Returned? {
          synonyms := Some(fetched.value);
        }
      }
      var rendered := calls.render(wordData, collocations, synonyms);
      if rendered.Raised? {
        completed := false;
        StoppedRunStays(rows, i + 1, calls);
        return;
      }
      var html := rendered.value;
      var tags := DeriveTags(wordData);
      written := written + [[word, html, Join(tags, ',')]];
    }
    assert rows[..|rows|] == rows;
  }

  /** The header row is always the first row written. */
  lemma {:induction false} RunStartsWithHeader<C, S>(rows: seq<seq<string>>, calls: Calls<C, S>)
    ensures |Run(rows, calls).written| >= 1 && Run(rows, calls).written[0] == Header
    decreases |rows|
  {
    if rows != [] {
      RunStartsWithHeader(rows[..|rows| - 1], calls);
    }
  }

  /** A row that does not raise: it has a first cell, and unless that cell is
      `word` the lookup of it returns and so does the rendering of the result. */
  predicate RowReadable<C, S>(row: seq<string>, calls: Calls<C, S>) {
    && row != []
    && (row[0] != "word" ==>
          && calls.meanings(row[0]).Returned?
          && OutputRow(row[0], calls.meanings(row[0]).value, calls).Returned?)
  }

  /** The words of the rows that are not skipped, in input order. */
  function Kept(rows: seq<seq<string>>): seq<string> {
    if rows == [] then []
    else
      var last := rows[|rows| - 1];
      Kept(rows[..|rows| - 1]) + (if last != [] && last[0] != "word" then [last[0]] else [])
  }

  /** The run completes exactly when every row is readable. */
  lemma {:induction false} RunCompletes<C, S>(rows: seq<seq<string>>, calls: Calls<C, S>)
    ensures Run(rows, calls).alive <==> forall i | 0 <= i < |rows| :: RowReadable(rows[i], calls)
    decreases |rows|
  {
    if rows != [] {
      var init := rows[..|rows| - 1];
      RunCompletes(init, calls);
      assert forall i | 0 <= i < |init| :: init[i] == rows[i];
    }
  }

  /** When every row is readable, each row not skipped yields exactly one
      output row after the header, in input order. */
  lemma {:induction false} OneRowPerWord<C, S>(rows: seq<seq<string>>, calls: Calls<C, S>)
    requires forall i | 0 <= i < |rows| :: RowReadable(rows[i], calls)
    ensures forall k | 0 <= k < |Kept(rows)| ::
      calls.meanings(Kept(rows)[k]).Returned? &&
      OutputRow(Kept(rows)[k], calls.meanings(Kept(rows)[k]).value, calls).Returned?
    ensures |Run(rows, calls).written| == 1 + |Kept(rows)|
    ensures forall k | 0 <= k < |Kept(rows)| ::
      Run(rows, calls).written[k + 1] == OutputRow(Kept(rows)[k], calls.meanings(Kept(rows)[k]).value, calls).value
    decreases |rows|
  {
    if rows != [] {
      var init := rows[..|rows| - 1];
      assert forall i | 0 <= i < |init| :: init[i] == rows[i];
      OneRowPerWord(init, calls);
      RunCompletes(init, calls);
    }
  }

  // ---------------------------------------------------------------------------
  // The renderer this loop calls reads a flat word record (its first step is
  // `word_data['word']`), while the lookup returns a dictionary keyed by
  // dictionary title.

  /** As written: with a renderer that raises on any dictionary without a
      `word` key, as one starting with `word_data['word']` does, the first
      word whose lookup returns a title-keyed dictionary ends the run, and
      only the header is ever written. */
  lemma {:induction false} TitleKeyedRunStops<C, S>(rows: seq<seq<string>>, k: nat, calls: Calls<C, S>)
    requires forall wordData: WordData, c: Option<C>, s: Option<S>
      | (forall j | 0 <= j < |wordData| :: wordData[j].0 != "word") ::
      calls.render(wordData, c, s).Raised?
    requires k < |rows|
    requires forall i | 0 <= i < k :: rows[i] != [] && rows[i][0] == "word"
    requires rows[k] != [] && rows[k][0] != "word" && calls.meanings(rows[k][0]).Returned?
    requires forall j | 0 <= j < |calls.meanings(rows[k][0]).value| :: calls.meanings(rows[k][0]).value[j].0 != "word"
    ensures Run(rows, calls) == CsvRun([Header], false)
  {
    HeaderRowsSkipped(rows, k, calls);
    var word := rows[k][0];
    assert calls.render(calls.meanings(word).value,
      Optional(calls.hasCollocations, calls.collocations(word)),
      Optional(calls.hasSynonyms, calls.synonyms(word))).Raised?;
    assert rows[..k + 1][..k] == rows[..k];
    StoppedRunStays(rows, k + 1, calls);
  }

  lemma {:induction false} HeaderRowsSkipped<C, S>(rows: seq<seq<string>>, k: nat, calls: Calls<C, S>)
    requires k <= |rows|
    requires forall i | 0 <= i < k :: rows[i] != [] && rows[i][0] == "word"
    ensures Run(rows[..k], calls) == CsvRun([Header], true)
    decreases k
  {
    if k > 0 {
      assert rows[..k][..k - 1] == rows[..k - 1];
      HeaderRowsSkipped(rows, k - 1, calls);
    }
  }

  /** Corrected: the renderer is handed a card it can read, built from the
      lookup by `renderCard`, and so always returns. */
  function Intended<C, S>(calls: Calls<C, S>, renderCard: (WordData, Option<C>, Option<S>) -> string): Calls<C, S> {
    calls.(render := (wordData, c, s) => Returned(renderCard(wordData, c, s)))
  }

  /** With the corrected renderer, a run whose rows are non-empty and whose
      lookups return completes and writes, after the header, one row per
      word holding the word, its card and its tags. */
  lemma IntendedWritesEveryWord<C, S>(rows: seq<seq<string>>, calls: Calls<C, S>,
                                      renderCard: (WordData, Option<C>, Option<S>) -> string)
    requires forall i | 0 <= i < |rows| :: rows[i] != [] && (rows[i][0] != "word" ==> calls.meanings(rows[i][0]).Returned?)
    ensures Run(rows, Intended(calls, renderCard)).alive
    ensures |Run(rows, Intended(calls, renderCard)).written| == 1 + |Kept(rows)|
    ensures forall k | 0 <= k < |Kept(rows)| :: calls.meanings(Kept(rows)[k]).Returned?
    ensures forall k | 0 <= k < |Kept(rows)| ::
      var word := Kept(rows)[k];
      var wordData := calls.meanings(word).value;
      Run(rows, Intended(calls, renderCard)).written[k + 1] ==
        [word,
         renderCard(wordData, Optional(calls.hasCollocations, calls.collocations(word)),
                    Optional(calls.hasSynonyms, calls.synonyms(word))),
         Join(AllTags(wordData), ',')]
  {
    var fixed := Intended(calls, renderCard);
    assert forall i | 0 <= i < |rows| :: RowReadable(rows[i], fixed);
    RunCompletes(rows, fixed);
    OneRowPerWord(rows, fixed);
  }
}
