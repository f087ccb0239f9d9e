/** The script's second half: reads the generated CSV back with a
    `DictReader` and builds one record per row, splitting the tags cell on
    commas. */
module MainRecords {
  import opened Wrappers
  import opened Text
  import DatasetCsv

  /** A `DictReader` row: each column of the header, `None` when the row is
      shorter than the header. */
  datatype CsvRow = CsvRow(word: Option<string>, meaning: Option<string>, tags: Option<string>)

  /** The record handed to the deck builder. */
  datatype Record = Record(word: Option<string>, meaning: Option<string>, tags: seq<string>)

  /** The records of all rows, or `Raised` when some row has no tags cell
      (`None.split` raises and ends the script). */
  function Records(rows: seq<CsvRow>): Outcome<seq<Record>> {
    if rows == [] then Returned([])
    else
      var last := rows[|rows| - 1];
      match Records(rows[..|rows| - 1])
      case Raised => Raised
      case Returned(records) =>
        if last.tags.None? then Raised
        else Returned(records + [Record(last.word, last.meaning, Split(last.tags.value, ','))])
  }

  /** The reading loop. */
  method ReadRecords(rows: seq<CsvRow>) returns (result: Outcome<seq<Record>>)
    ensures result == Records(rows)
  {
    var wordList: seq<Record> := [];
    for i := 0 to |rows|
      invariant Records(rows[..i]) == Returned(wordList)
    {
      assert rows[..i + 1][..i] == rows[..i];
      var row := rows[i];
      if row.tags.None? {
        assert Records(rows[..i + 1]) == Raised;
        RaisedStays(rows, i + 1);
        return Raised;
      }
      var tags := Split(row.tags.value, ',');
      wordList := wordList + [Record(row.word, row.meaning, tags)];
    }
    assert rows[..|rows|] == rows;
    return Returned(wordList);
  }

  lemma {:induction false} RaisedStays(rows: seq<CsvRow>, k: nat)
    requires k <= |rows| && Records(rows[..k]).Raised?
    ensures Records(rows).Raised?
    decreases |rows| - k
  {
    if k < |rows| {
      assert rows[..k + 1][..k] == rows[..k];
      RaisedStays(rows, k + 1);
    } else {
      assert rows[..k] == rows;
    }
  }

  /** Reading succeeds exactly when every row has a tags cell; then there is
      one record per row, in file order, with word and meaning copied and the
      tags cell split on commas. */
  lemma {:induction false} RecordsPerRow(rows: seq<CsvRow>)
    ensures Records(rows).Returned? <==> forall i | 0 <= i < |rows| :: rows[i].tags.Some?
    ensures Records(rows).Returned? ==>
      && |Records(rows).value| == |rows|
      && forall i | 0 <= i < |rows| ::
           Records(rows).value[i] == Record(rows[i].word, rows[i].meaning, Split(rows[i].tags.value, ','))
    decreases |rows|
  {
    if rows != [] {
      var init := rows[..|rows| - 1];
      assert forall i | 0 <= i < |init| :: init[i] == rows[i];
      RecordsPerRow(init);
    }
  }

  /** The tags written by the dataset loop come back as the same list when
      there was at least one, and as `[""]`, not `[]`, when there was none. */
  lemma TagsCellRoundTrip(wordData: DatasetCsv.WordData)
    ensures DatasetCsv.AllTags(wordData) != [] ==>
      Split(Join(DatasetCsv.AllTags(wordData), ','), ',') == DatasetCsv.AllTags(wordData)
    ensures DatasetCsv.AllTags(wordData) == [] ==>
      Split(Join(DatasetCsv.AllTags(wordData), ','), ',') == [""]
  {
    var tags := DatasetCsv.AllTags(wordData);
    DatasetCsv.AllTagsAreNames(wordData);
    if tags != [] {
      assert forall i | 0 <= i < |tags| :: ',' !in tags[i];
      SplitJoin(tags, ',');
    }
  }
}
