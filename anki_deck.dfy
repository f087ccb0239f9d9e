/** `create_anki_deck`: one note per word record, with the word's sound
    file attached when it exists in the audio directory, all packed with
    the sound files into one package. */
module AnkiDeck {
  import opened Wrappers

  /** A note type: its id, its name and its field names. */
  datatype NoteModel = NoteModel(id: int, name: string, fields: seq<string>)

  const BasicModel := NoteModel(1431196525, "Basic Model", ["Front", "Back"])
  const BasicModelAudio := NoteModel(974012962, "Basic Model with Audio", ["Front", "Back", "Audio"])
  const DefaultModelName := "basic_model_audio"

  /** `models.get(model_name)`: the two registered note types, `None` for any other name. */
  function ModelFor(name: string): (r: Option<NoteModel>)
    ensures r.Some? <==> name == "basic_model" || name == DefaultModelName
    ensures name == DefaultModelName ==> r == Some(BasicModelAudio)
    ensures name == "basic_model" ==> r == Some(BasicModel)
  {
    if name == "basic_model" then Some(BasicModel)
    else if name == DefaultModelName then Some(BasicModelAudio)
    else None
  }

  /** A word record: word, card back, and the tags when the record has any. */
  datatype Entry = Entry(word: string, meaning: string, tags: Option<seq<string>>)

  datatype Note = Note(model: Option<NoteModel>, fields: seq<string>, tags: seq<string>)

  /** What is written out: the deck and the media files packed with it. */
  datatype Package = Package(deckId: int, deckName: string, notes: seq<Note>, mediaFiles: seq<string>)

  /** A deck being filled, note by note. */
  class Deck {
    const id: int
    const name: string
    var notes: seq<Note>

    constructor(id: int, name: string)
      ensures this.id == id && this.name == name && notes == []
    {
      this.id := id;
      this.name := name;
      notes := [];
    }

    method AddNote(note: Note)
      modifies this
      ensures notes == old(notes) + [note]
    {
      notes := notes + [note];
    }
  }

  /** `os.path.join(directory, name)` on POSIX: an absolute `name` replaces
      the directory, otherwise a `/` is put between them unless the directory
      is empty or already ends with one. */
  function JoinPath(directory: string, name: string): string {
    if |name| > 0 && name[0] == '/' then name
    else if directory == [] || directory[|directory| - 1] == '/' then directory + name
    else directory + "/" + name
  }

  function AudioFileName(word: string): string {
    word + ".mp3"
  }

  function AudioPath(audioDirectory: string, word: string): string {
    JoinPath(audioDirectory, AudioFileName(word))
  }

  /** The note of one record; `isFile` says which paths are existing files. */
  function NoteFor(entry: Entry, model: Option<NoteModel>, audioDirectory: string, isFile: string -> bool): Note {
    var audioField :=
      if isFile(AudioPath(audioDirectory, entry.word)) then "[sound:" + AudioFileName(entry.word) + "]" else "";
    Note(model, [entry.word, entry.meaning, audioField], if entry.tags.Some? then entry.tags.value else [])
  }

  function Notes(entries: seq<Entry>, model: Option<NoteModel>, audioDirectory: string, isFile: string -> bool): seq<Note> {
    if entries == [] then []
    else Notes(entries[..|entries| - 1], model, audioDirectory, isFile) + [NoteFor(entries[|entries| - 1], model, audioDirectory, isFile)]
  }

  /** The existing sound files of the records, in record order. */
  function Media(entries: seq<Entry>, audioDirectory: string, isFile: string -> bool): seq<string> {
    if entries == [] then []
    else
      var path := AudioPath(audioDirectory, entries[|entries| - 1].word);
      Media(entries[..|entries| - 1], audioDirectory, isFile) + (if isFile(path) then [path] else [])
  }

  /** The record loop and the package. The random deck id, the audio
      directory and the file-existence test are parameters. */
  method CreateAnkiDeck(
    deckName: string, entries: seq<Entry>, deckId: int, audioDirectory: string,
    isFile: string -> bool, modelName: string)
    returns (package: Package)
    ensures package == Package(deckId, deckName,
      Notes(entries, ModelFor(modelName), audioDirectory, isFile), Media(entries, audioDirectory, isFile))
  {
    var model := ModelFor(modelName);
    var deck := new Deck(deckId, deckName);
    var audioFiles: seq<string> := [];
    for i := 0 to |entries|
      invariant deck.notes == Notes(entries[..i], model, audioDirectory, isFile)
      invariant audioFiles == Media(entries[..i], audioDirectory, isFile)
    {
      assert entries[..i + 1][..i] == entries[..i];
      var entry := entries[i];
      var word := entry.word;
      var audioFilename := AudioFileName(word);
      var audioFilePath := JoinPath(audioDirectory, audioFilename);
      var audioField: string;
      if isFile(audioFilePath) {
        audioField := "[sound:" + audioFilename + "]";
        audioFiles := audioFiles + [audioFilePath];
      } else {
        audioField := "";
      }
      var tags := if entry.tags.Some? then entry.tags.value else [];
      deck.AddNote(Note(model, [entry.word, entry.meaning, audioField], tags));
    }
    assert entries[..|entries|] == entries;
    package := Package(deck.id, deck.name, deck.notes, audioFiles);
  }

  /** One note per record, in record order. */
  lemma {:induction false} NotesInOrder(entries: seq<Entry>, model: Option<NoteModel>, audioDirectory: string, isFile: string -> bool)
    ensures |Notes(entries, model, audioDirectory, isFile)| == |entries|
    ensures forall i | 0 <= i < |entries| ::
      Notes(entries, model, audioDirectory, isFile)[i] == NoteFor(entries[i], model, audioDirectory, isFile)
    decreases |entries|
  {
    if entries != [] {
      var init := entries[..|entries| - 1];
      assert forall i | 0 <= i < |init| :: init[i] == entries[i];
      NotesInOrder(init, model, audioDirectory, isFile);
    }
  }

  /** The note of a record has the fields `[word, meaning, audio]`, the audio
      field naming the sound file exactly when it exists, and no tags for a
      record without any. */
  predicate NoteShows(note: Note, entry: Entry, model: Option<NoteModel>, audioDirectory: string, isFile: string -> bool) {
    && note.model == model
    && |note.fields| == 3
    && note.fields[0] == entry.word
    && note.fields[1] == entry.meaning
    && (note.fields[2] != "" <==> isFile(AudioPath(audioDirectory, entry.word)))
    && (note.fields[2] != "" ==> note.fields[2] == "[sound:" + entry.word + ".mp3]")
    && (entry.tags.None? ==> note.tags == [])
    && (entry.tags.Some? ==> note.tags == entry.tags.value)
  }

  lemma NoteForShows(entry: Entry, model: Option<NoteModel>, audioDirectory: string, isFile: string -> bool)
    ensures NoteShows(NoteFor(entry, model, audioDirectory, isFile), entry, model, audioDirectory, isFile)
  {
    assert "[sound:" + AudioFileName(entry.word) + "]" == "[sound:" + entry.word + ".mp3]";
  }

  /** The deck's notes, one per record in record order, each showing its record. */
  lemma NotesPerEntry(entries: seq<Entry>, model: Option<NoteModel>, audioDirectory: string, isFile: string -> bool)
    ensures |Notes(entries, model, audioDirectory, isFile)| == |entries|
    ensures forall i | 0 <= i < |entries| ::
      NoteShows(Notes(entries, model, audioDirectory, isFile)[i], entries[i], model, audioDirectory, isFile)
  {
    NotesInOrder(entries, model, audioDirectory, isFile);
    forall i | 0 <= i < |entries|
      ensures NoteShows(Notes(entries, model, audioDirectory, isFile)[i], entries[i], model, audioDirectory, isFile)
    {
      NoteForShows(entries[i], model, audioDirectory, isFile);
    }
  }

  /** Every media file is the existing sound file of some record. */
  lemma {:induction false} MediaOnlyExisting(entries: seq<Entry>, audioDirectory: string, isFile: string -> bool)
    ensures |Media(entries, audioDirectory, isFile)| <= |entries|
    ensures forall k | 0 <= k < |Media(entries, audioDirectory, isFile)| ::
      isFile(Media(entries, audioDirectory, isFile)[k])
      && exists i | 0 <= i < |entries| :: Media(entries, audioDirectory, isFile)[k] == AudioPath(audioDirectory, entries[i].word)
    decreases |entries|
  {
    if entries != [] {
      var init := entries[..|entries| - 1];
      MediaOnlyExisting(init, audioDirectory, isFile);
      var media := Media(entries, audioDirectory, isFile);
      forall k | 0 <= k < |media|
        ensures isFile(media[k]) && exists i | 0 <= i < |entries| :: media[k] == AudioPath(audioDirectory, entries[i].word)
      {
        if k < |Media(init, audioDirectory, isFile)| {
          var i :| 0 <= i < |init| && media[k] == AudioPath(audioDirectory, init[i].word);
          assert init[i] == entries[i];
        } else {
          assert media[k] == AudioPath(audioDirectory, entries[|entries| - 1].word);
        }
      }
    }
  }

  /** Every record whose sound file exists has that file in the media list. */
  lemma {:induction false} MediaHasExisting(entries: seq<Entry>, audioDirectory: string, isFile: string -> bool)
    ensures forall i | 0 <= i < |entries| && isFile(AudioPath(audioDirectory, entries[i].word)) ::
      AudioPath(audioDirectory, entries[i].word) in Media(entries, audioDirectory, isFile)
    decreases |entries|
  {
    if entries != [] {
      var init := entries[..|entries| - 1];
      assert forall i | 0 <= i < |init| :: init[i] == entries[i];
      MediaHasExisting(init, audioDirectory, isFile);
    }
  }

  /** The joined path always ends with the name; an absolute name replaces
      the directory, and any other name lands inside the directory with at
      most one `/` added. */
  lemma JoinPathShape(directory: string, name: string)
    ensures var path := JoinPath(directory, name);
      |name| <= |path| && path[|path| - |name|..] == name
    ensures |name| > 0 && name[0] == '/' ==> JoinPath(directory, name) == name
    ensures name == [] || name[0] != '/' ==>
      directory <= JoinPath(directory, name) && |JoinPath(directory, name)| <= |directory| + 1 + |name|
  {
  }

  /** Every note is given the chosen note type. Under the default type each
      note has as many fields as the type; under `basic_model` each note has
      one field more than the type declares, the audio field. */
  lemma {:induction false} NotesFitModel(entries: seq<Entry>, modelName: string, audioDirectory: string, isFile: string -> bool)
    ensures forall note | note in Notes(entries, ModelFor(modelName), audioDirectory, isFile) ::
      note.model == ModelFor(modelName)
    ensures forall note | note in Notes(entries, ModelFor(modelName), audioDirectory, isFile) && note.model.Some? ::
      (|note.fields| == |note.model.value.fields| <==> modelName == DefaultModelName)
    ensures modelName == "basic_model" ==>
      forall note | note in Notes(entries, ModelFor(modelName), audioDirectory, isFile) ::
        |note.fields| == |BasicModel.fields| + 1
    decreases |entries|
  {
    if entries != [] {
      NotesFitModel(entries[..|entries| - 1], modelName, audioDirectory, isFile);
    }
  }
}
