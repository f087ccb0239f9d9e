/** The older top-level `create_csv_file`: the same row loop as the dataset
    package's, but the word lookup returns one record with a single part of
    speech, and collocations and synonyms are always fetched. */
module LegacyCsv {
  import opened Wrappers
  import opened Text
  import DatasetCsv

  /** The calls the legacy loop makes that are not part of this model: the
      lookup of a word's record (of type `W`), the part of speech that record
      holds, the two fetches and the card renderer, which may raise. */
  datatype Calls<!W, !C, !S> = Calls(
    wordData: string -> Outcome<W>,
    partOfSpeech: W -> DatasetCsv.PartOfSpeech,
    collocations: string -> Outcome<C>,
    synonyms: string -> Outcome<S>,
    render: (W, Option<C>, Option<S>) -> Outcome<string>)

  /** The row written for a word whose lookup returned `record`, or `Raised`
      when the renderer raises: the two fetches are always attempted, and the
      tags come from the record's one part of speech. */
  function OutputRow<W, C, S>(word: string, record: W, calls: Calls<W, C, S>): Outcome<seq<string>> {
    var rendered := calls.render(record,
      DatasetCsv.Optional(true, calls.collocations(word)),
      DatasetCsv.Optional(true, calls.synonyms(word)));
    match rendered
    case Raised => Raised
    case Returned(html) => Returned([word, html, Join(DatasetCsv.EntryTags(calls.partOfSpeech(record)), ',')])
  }

  /** One input row, as in the dataset loop: a blank row, or a lookup or
      rendering that raises, ends the run; the header row is skipped. */
  function Step<W, C, S>(run: DatasetCsv.CsvRun, row: seq<string>, calls: Calls<W, C, S>): DatasetCsv.CsvRun {
    if row == [] then DatasetCsv.CsvRun(run.written, false)
    else if row[0] == "word" then run
    else
      match calls.wordData(row[0])
      case Raised => DatasetCsv.CsvRun(run.written, false)
      case Returned(record) =>
        match OutputRow(row[0], record, calls)
        case Raised => DatasetCsv.CsvRun(run.written, false)
        case Returned(out) => DatasetCsv.CsvRun(run.written + [out], true)
  }

  function Run<W, C, S>(rows: seq<seq<string>>, calls: Calls<W, C, S>): DatasetCsv.CsvRun {
    if rows == [] then DatasetCsv.CsvRun([DatasetCsv.Header], true)
    else
      var before := Run(rows[..|rows| - 1], calls);
      if !before.alive then before else Step(before, rows[|rows| - 1], calls)
  }

  lemma {:induction false} StoppedRunStays<W, C, S>(rows: seq<seq<string>>, k: nat, calls: Calls<W, C, S>)
    requires k <= |rows|
    requires !Run(rows[..k], calls).alive
    ensures Run(rows, calls) == Run(rows[..k], calls)
    decreases |rows| - k
  {
    if k < |rows| {
      assert rows[..k + 1][..k] == rows[..k];
      StoppedRunStays(rows, k + 1, calls);
    } else {
      assert rows[..k] == rows;
    }
  }

  /** The `try` around the three checks: a part of speech the checks raise on
      leaves the list empty. */
  method RecordTags(pos: DatasetCsv.PartOfSpeech) returns (tags: seq<string>)
    ensures tags == DatasetCsv.EntryTags(pos)
  {
    tags := DatasetCsv.AppendEntryTags([], pos);
  }

  /** The legacy row loop; `completed` is false when an exception ended it. */
  method CreateCsvFile<W, C, S>(rows: seq<seq<string>>, calls: Calls<W, C, S>)
    returns (written: seq<seq<string>>, completed: bool)
    ensures DatasetCsv.CsvRun(written, completed) == Run(rows, calls)
  {
    written := [DatasetCsv.Header];
    completed := true;
    for i := 0 to |rows|
      invariant DatasetCsv.CsvRun(written, true) == Run(rows[..i], calls)
    {
      assert rows[..i + 1][..i] == rows[..i];
      var row := rows[i];
      if row == [] {
        completed := false;
        StoppedRunStays(rows, i + 1, calls);
        return;
      }
      var word := row[0];
      if word == "word" {
        continue;
      }
      var lookup := calls.wordData(word);
      if lookup.Raised? {
        completed := false;
        StoppedRunStays(rows, i + 1, calls);
        return;
      }
      var record := lookup.value;
      var collocations: Option<C> := None;
      var fetchedCollocations := calls.collocations(word);
      if fetchedCollocations.Returned? {
        collocations := Some(fetchedCollocations.value);
      }
      var synonyms: Option<S> := None;
      var fetchedSynonyms := calls.synonyms(word);
      if fetchedSynonyms.Returned? {
        synonyms := Some(fetchedSynonyms.value);
      }
      var rendered := calls.render(record, collocations, synonyms);
      if rendered.Raised? {
        completed := false;
        StoppedRunStays(rows, i + 1, calls);
        return;
      }
      var html := rendered.value;
      var tags := RecordTags(calls.partOfSpeech(record));
      written := written + [[word, html, Join(tags, ',')]];
    }
    assert rows[..|rows|] == rows;
  }

  /** A row that does not raise: it has a first cell, and unless that cell is
      `word` the lookup of it returns and so does the rendering of the record. */
  predicate RowReadable<W, C, S>(row: seq<string>, calls: Calls<W, C, S>) {
    && row != []
    && (row[0] != "word" ==>
          && calls.wordData(row[0]).Returned?
          && OutputRow(row[0], calls.wordData(row[0]).value, calls).Returned?)
  }

  /** The header row comes first; the run completes exactly when every row is
      readable. */
  lemma {:induction false} LegacyRunShape<W, C, S>(rows: seq<seq<string>>, calls: Calls<W, C, S>)
    ensures |Run(rows, calls).written| >= 1 && Run(rows, calls).written[0] == DatasetCsv.Header
    ensures Run(rows, calls).alive <==> forall i | 0 <= i < |rows| :: RowReadable(rows[i], calls)
    decreases |rows|
  {
    if rows != [] {
      var init := rows[..|rows| - 1];
      LegacyRunShape(init, calls);
      assert forall i | 0 <= i < |init| :: init[i] == rows[i];
    }
  }

  /** When every row is readable, each row not skipped yields exactly one
      output row after the header, in input order. */
  lemma {:induction false} LegacyOneRowPerWord<W, C, S>(rows: seq<seq<string>>, calls: Calls<W, C, S>)
    requires forall i | 0 <= i < |rows| :: RowReadable(rows[i], calls)
    ensures forall k | 0 <= k < |DatasetCsv.Kept(rows)| ::
      calls.wordData(DatasetCsv.Kept(rows)[k]).Returned? &&
      OutputRow(DatasetCsv.Kept(rows)[k], calls.wordData(DatasetCsv.Kept(rows)[k]).value, calls).Returned?
    ensures |Run(rows, calls).written| == 1 + |DatasetCsv.Kept(rows)|
    ensures forall k | 0 <= k < |DatasetCsv.Kept(rows)| ::
      Run(rows, calls).written[k + 1]
      == OutputRow(DatasetCsv.Kept(rows)[k], calls.wordData(DatasetCsv.Kept(rows)[k]).value, calls).value
    decreases |rows|
  {
    if rows != [] {
      var init := rows[..|rows| - 1];
      assert forall i | 0 <= i < |init| :: init[i] == rows[i];
      LegacyOneRowPerWord(init, calls);
      LegacyRunShape(init, calls);
    }
  }

  /** The tags cell of a legacy row: each tag at most once, in the order
      adjective, adverb, verb, empty when the part of speech is unusable,
      and split back into the same list when it is not empty. */
  lemma LegacyTagsCell(pos: DatasetCsv.PartOfSpeech)
    ensures pos.PosUnusable? ==> Join(DatasetCsv.EntryTags(pos), ',') == ""
    ensures forall i, j | 0 <= i < j < |DatasetCsv.EntryTags(pos)| :: DatasetCsv.EntryTags(pos)[i] != DatasetCsv.EntryTags(pos)[j]
    ensures DatasetCsv.EntryTags(pos) != [] ==> Split(Join(DatasetCsv.EntryTags(pos), ','), ',') == DatasetCsv.EntryTags(pos)
  {
    var tags := DatasetCsv.EntryTags(pos);
    DatasetCsv.EntryTagsMeaning(pos);
    if tags != [] {
      assert forall i | 0 <= i < |tags| :: ',' !in tags[i];
      SplitJoin(tags, ',');
    }
  }
}
