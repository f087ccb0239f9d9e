# anki-cambridge, modelled in Dafny

This project models the deterministic core of anki-cambridge, a pipeline that
turns a word list into an Anki deck:

- the Cambridge scraper (`get_word_meanings`) groups the parsed dictionary
  sections and entries into a dictionary keyed by dictionary title;
- the Oxford synonyms scraper (`get_synonyms`) retries up to five times with
  exponential back-off, then reads one `{synonym, examples}` record per
  `defpara` span;
- the card renderer (`generate_html_from_json`) builds the HTML back side of
  each card;
- the two CSV builders (`create_csv_file`, the dataset package's and the older
  top-level one) write one `[word, html, tags]` row per word, deriving the tags
  from the parts of speech;
- the script `main.py` reads the CSV back into records, splitting the tags
  cell on commas;
- the deck builder (`create_anki_deck`) makes one three-field note per record
  and collects the existing sound files.

Each loop of the source is a Dafny `method` with a loop whose `ensures` ties
its result to a specification function. The properties the program promises
are lemmas about those functions. The deck being filled is a `class` whose
`AddNote` appends to its notes.

Files, one module each:

- `wrappers.dfy`: `Option`, and `Outcome`, which is a value or "an
  exception escaped".
- `text.dfy`: the Python `str` operations used: `in`, `startswith`,
  `split`, `join`, `strip`, `lower`, and the f-string rendering of `None`.
- `html_generator.dfy`: `src/html/html_generator.py`.
- `dataset_csv.dfy`: `src/dataset/create_csv.py`.
- `legacy_csv.dfy`: `create_csv.py`.
- `main_records.dfy`: `main.py`.
- `meanings.dfy`: `src/scrappers/meanings.py`, after parsing.
- `anki_deck.dfy`: `src/anki/ankideck_generator.py`.
- `synonyms.dfy`: `src/scrappers/synonyms.py`.

Whatever the program gets from outside comes in as a parameter. That covers
the network, the parsed page, the dictionary lookups, file existence and the
random deck id. Raising an exception is modelled as a `None` or `Raised`
result.

## Model

| member | source | states |
|---|---|---|
| Text.Split | main.py:22 | `str.split(',')` gives at least one field, no field holds the separator, and joining the fields gives back the input |
| Text.SplitJoin | main.py:22 | splitting the join of a non-empty list of comma-free strings gives back the list |
| Text.JoinEmptyDoesNotRoundTrip | src/dataset/create_csv.py:52 | the empty tag list is written as `""` and read back as `[""]`, not `[]` |
| Text.LastFieldIsSuffix | src/scrappers/meanings.py:53 | `split('\|')[-1]` is the suffix after the last `\|` and holds no `\|` |
| Text.LastFieldWithoutSep | src/scrappers/meanings.py:53 | `split('\|')[-1]` is the whole text when there is no `\|` |
| Text.Strip | src/scrappers/meanings.py:53 | `strip()` never lengthens, leaves no edge whitespace, and keeps an already-trimmed text |
| Text.TrimStartDropsSpace | src/scrappers/meanings.py:53 | the leading part `strip()` removes is all whitespace |
| Text.TrimEndDropsSpace | src/scrappers/meanings.py:53 | the trailing part `strip()` removes is all whitespace |
| Text.ContainsTransitive | src/dataset/create_csv.py:46-49 | an occurrence inside an occurrence is an occurrence |
| HtmlGenerator.GenerateHtml | src/html/html_generator.py:14-69 | the string built by appending piece by piece is exactly the card `Card` describes |
| HtmlGenerator.AppendMeaning | src/html/html_generator.py:29-41 | the meaning loop body appends the meaning's block: badge, meaning, one line per example, closing div, yellow rule |
| HtmlGenerator.AppendOptionalSections | src/html/html_generator.py:44-68 | the collocations section is appended only when the collocations are truthy, then the synonyms section only when the synonyms are truthy |
| HtmlGenerator.AppendCollocations | src/html/html_generator.py:44-53 | the collocations branch appends the banner, one item per collocation and the yellow rule |
| HtmlGenerator.AppendSynonyms | src/html/html_generator.py:56-68 | the synonyms branch appends the banner and one nested list per synonym, with no yellow rule |
| HtmlGenerator.AppendSynonym | src/html/html_generator.py:60-67 | one synonym is rendered as its item followed by the nested list of its examples |
| HtmlGenerator.MeaningBlockOpens | src/html/html_generator.py:30-34 | a meaning block opens with the level badge, showing the level when it is truthy and the literal `None` otherwise, followed by the meaning text |
| HtmlGenerator.CardStartsWithHeader | src/html/html_generator.py:18-26 | the card starts with the header f-string, before every meaning block |
| HtmlGenerator.HeaderHoldsWord | src/html/html_generator.py:19 | the header shows the word inside its bold div |
| HtmlGenerator.HeaderHoldsPartOfSpeech | src/html/html_generator.py:20-21 | the header shows the part of speech inside a span of the info block |
| HtmlGenerator.HeaderHoldsPhonetic | src/html/html_generator.py:22 | the header shows `UK ` followed by the phonetic, `UK None` when it is missing |
| HtmlGenerator.MeaningInOrder | src/html/html_generator.py:29-41 | meaning i is rendered as its own block after the header and the earlier meanings' blocks, and before the later ones and the optional sections |
| HtmlGenerator.ExampleInOrder | src/html/html_generator.py:37-41 | example j is a `• example` div inside its meaning's block, in order, before the closing div and the yellow rule |
| HtmlGenerator.CollocationInOrder | src/html/html_generator.py:44-53 | collocation k is one `<li>` in input order, a missing key rendering as `''`, and the section ends with the yellow rule |
| HtmlGenerator.SynonymInOrder | src/html/html_generator.py:56-68 | synonym k is one item plus a nested list in input order, and a missing `examples` key gives an empty nested list |
| HtmlGenerator.OptionalSections | src/html/html_generator.py:44-58 | each optional section appears exactly when its list is given and non-empty, and starts with its banner |
| HtmlGenerator.CardRuleCount | src/html/html_generator.py:19-53 | for texts without `<`, the card holds exactly 1 + len(meanings) + (1 if collocations else 0) occurrences of `<hr` |
| HtmlGenerator.UnescapedWordAddsRule | src/html/html_generator.py:20 | texts are not escaped: a word `<hr>` adds a second rule to the header |
| DatasetCsv.EntryTagsMeaning | src/dataset/create_csv.py:44-49 | an entry's tags are exactly the names occurring in its part of speech, each once, in the order adjective, adverb, verb, and none when the test raises |
| DatasetCsv.AdverbIsAlsoVerb | src/dataset/create_csv.py:46-49 | a part of speech containing `adverb` is tagged both `adverb` and `verb` |
| DatasetCsv.AppendEntryTags | src/dataset/create_csv.py:43-51 | the three checks append exactly that entry's tags |
| DatasetCsv.AppendEntriesTags | src/dataset/create_csv.py:42-51 | the inner loop appends the tags of every entry of one dictionary, in order |
| DatasetCsv.DeriveTags | src/dataset/create_csv.py:39-51 | the nested loops produce the tags of every entry of every dictionary, in order, duplicates kept |
| DatasetCsv.AllTagsCount | src/dataset/create_csv.py:39-51 | each tag occurs once per entry (in any dictionary) whose part of speech yields it |
| DatasetCsv.AllTagsAreNames | src/dataset/create_csv.py:44-49 | every tag written is `adjective`, `adverb` or `verb` |
| DatasetCsv.FlagOffIgnoresFetch | src/dataset/create_csv.py:26-36 | a fetch whose flag is off is never made: whatever it would return, the output row is the same |
| DatasetCsv.CreateCsvFile | src/dataset/create_csv.py:18-52 | the row loop writes exactly the rows `Run` describes, and stops at the first exception, from a blank row, the lookup or the renderer |
| DatasetCsv.RunStartsWithHeader | src/dataset/create_csv.py:18 | the first row written is `['word', 'meaning', 'tags']` |
| DatasetCsv.RunCompletes | src/dataset/create_csv.py:21-38 | the run completes exactly when every row has a first cell and, for every non-header word, the lookup and the rendering of its result return |
| DatasetCsv.OneRowPerWord | src/dataset/create_csv.py:21-52 | a completed run writes the header then exactly one `[word, html, ','.join(tags)]` row per non-header row, in input order |
| DatasetCsv.TitleKeyedRunStops | src/dataset/create_csv.py:25-38 | with a renderer that raises on a dictionary without a `word` key, the first word whose lookup returns a title-keyed dictionary ends the run with only the header written |
| DatasetCsv.IntendedWritesEveryWord | src/dataset/create_csv.py:21-52 | with a renderer that returns, every run over non-empty rows whose lookups return completes with one `[word, card, tags]` row per word |
| DatasetCsv.StoppedRunStays | src/dataset/create_csv.py:21-52 | once an exception escapes the loop, later rows write nothing |
| LegacyCsv.RecordTags | create_csv.py:37-46 | the legacy checks give the single part of speech's tags, each at most once, in order, and none when the test raises |
| LegacyCsv.CreateCsvFile | create_csv.py:19-47 | the legacy row loop writes exactly the rows `Run` describes, always attempting both fetches, and stops at the first exception, from a blank row, the lookup or the renderer |
| LegacyCsv.LegacyRunShape | create_csv.py:19-36 | the header comes first, and the run completes exactly when every row has a first cell and, for every non-header word, the lookup and the rendering of its record return |
| LegacyCsv.LegacyOneRowPerWord | create_csv.py:23-47 | a completed run writes one output row per non-header row, in input order |
| LegacyCsv.LegacyTagsCell | create_csv.py:37-47 | an unusable part of speech gives an empty cell, the tags are distinct, and a non-empty cell splits back into the tags |
| MainRecords.ReadRecords | main.py:18-24 | the reading loop builds exactly the records `Records` describes, or raises on a row without a tags cell |
| MainRecords.RecordsPerRow | main.py:18-24 | reading succeeds exactly when every row has a tags cell, giving one record per row in file order, word and meaning copied and tags split on `,` |
| MainRecords.TagsCellRoundTrip | main.py:22 | the tags written by the dataset loop come back unchanged when non-empty, and as `[""]` when empty |
| Meanings.HeadinglessUnderCambridge | src/scrappers/meanings.py:48-56 | sections without a heading are stored under `Cambridge`, all their parsed entries in order, and nothing is stored under any other title |
| Meanings.IsAmericanIgnoresCase | src/scrappers/meanings.py:59 | whether a title counts as American does not depend on its letter case |
| Meanings.TitleHasNoBar | src/scrappers/meanings.py:50-53 | the dictionary title holds no `\|` |
| Meanings.TitleWithoutBar | src/scrappers/meanings.py:50-53 | a heading without `\|` gives the whole stripped heading as the title |
| Meanings.AudioUrlRule | src/scrappers/meanings.py:84-85 | a link starting with `http` is kept; any other becomes an `https:` link, on the dictionary host unless it names a host |
| Meanings.ParseDefinition | src/scrappers/meanings.py:122-149 | a definition block gives exactly `MeaningOf`, and raises when it has no extra-info element |
| Meanings.ParseSense | src/scrappers/meanings.py:113-151 | one sense gives its title and one meaning per definition block, in order |
| Meanings.ParseSenses | src/scrappers/meanings.py:111-151 | the senses loop gives one context per sense, in order, or raises |
| Meanings.ParseEntry | src/scrappers/meanings.py:65-151 | the body of the `try` gives exactly `EntryOf` |
| Meanings.MeaningsRead | src/scrappers/meanings.py:121-149 | the meanings parse exactly when every block has extra info, and then there is one meaning per block |
| Meanings.MeaningsInOrder | src/scrappers/meanings.py:121-149 | meaning `k` is the one read from definition block `k`, in document order |
| Meanings.ContextsShape | src/scrappers/meanings.py:111-151 | the senses parse exactly when all their blocks do, one context per sense, in document order |
| Meanings.MeaningFields | src/scrappers/meanings.py:124-149 | level is `None` without a level tag, else the stripped tag text; extra info is copied; the meaning is `None` without a definition element, else its stripped text; examples are stripped, in order |
| Meanings.EntryShape | src/scrappers/meanings.py:65-151 | an entry parses exactly when it has head word and part of speech, its audio tag has a `src`, and every block has extra info |
| Meanings.AddSection | src/scrappers/meanings.py:63-160 | the entry loop of one section gives exactly `AddEntries` |
| Meanings.GetWordMeanings | src/scrappers/meanings.py:41-161 | the section loop gives exactly `Collect` |
| Meanings.InsertLookup | src/scrappers/meanings.py:154-157 | creating the key on first use and appending keeps the dictionary well formed and changes only the list under that title |
| Meanings.AddEntriesLookup | src/scrappers/meanings.py:63-160 | a section appends its parsed entries, in order and without the failing ones, under its title only |
| Meanings.CollectLookup | src/scrappers/meanings.py:45-161 | the list under each title is exactly the parsed entries of the non-American sections with that title, in document order |
| Meanings.KeyPresence | src/scrappers/meanings.py:154-157 | a title is a key exactly when at least one entry was stored under it, and an American title never is |
| Meanings.AmericanGathersNothing | src/scrappers/meanings.py:59-60 | a title containing `american` (any case) gathers no entries |
| AnkiDeck.NotesFitModel | src/anki/ankideck_generator.py:40-80 | every note gets the chosen note type; its three fields match the type's field count exactly under the default `basic_model_audio`, and are one more than `basic_model` declares |
| AnkiDeck.Deck.constructor | src/anki/ankideck_generator.py:60-62 | a new deck has the given id and name and no notes |
| AnkiDeck.Deck.AddNote | src/anki/ankideck_generator.py:84 | adding a note appends it after the existing notes |
| AnkiDeck.CreateAnkiDeck | src/anki/ankideck_generator.py:54-87 | the package holds the deck id, the name, `Notes` and `Media` |
| AnkiDeck.NotesInOrder | src/anki/ankideck_generator.py:66-84 | one note per record, the `i`-th note being the note built from the `i`-th record |
| AnkiDeck.NotesPerEntry | src/anki/ankideck_generator.py:66-84 | every note has fields `[word, meaning, audio]`, an audio field naming `word.mp3` exactly when the file exists, the record's tags, and `[]` for a record without tags |
| AnkiDeck.MediaOnlyExisting | src/anki/ankideck_generator.py:65-74 | every media file exists and is some record's sound file path |
| AnkiDeck.MediaHasExisting | src/anki/ankideck_generator.py:65-74 | every record's existing sound file is in the media list |
| AnkiDeck.JoinPathShape | src/anki/ankideck_generator.py:69 | the joined path always ends with the file name; an absolute name replaces the directory; any other name lands inside the directory, with at most one `/` added |
| Synonyms.FetchWithRetry | src/scrappers/synonyms.py:22-34 | the retry loop ends exactly as `RetryFrom` describes |
| Synonyms.RetryRequests | src/scrappers/synonyms.py:22-34 | at most five requests, all five when none answers 200, with a back-off of 2^k after each 403 or failed request k |
| Synonyms.RetryAnswer | src/scrappers/synonyms.py:22-26 | a page is returned exactly when some attempt answers 200 |
| Synonyms.RetryFirstAnswer | src/scrappers/synonyms.py:22-26 | a returned page is the page of the first attempt answering 200, which is the last request made, every earlier attempt having failed |
| Synonyms.RetryFacts | src/scrappers/synonyms.py:22-34 | the whole loop: at most five requests, stopping at the first 200, giving up exactly when none of the five answers 200, sleeping 2^k after each 403 or failed attempt k |
| Synonyms.ReadSynonyms | src/scrappers/synonyms.py:39-53 | reading the page gives exactly `SynonymsOf`, and raises without a body span |
| Synonyms.GetSynonyms | src/scrappers/synonyms.py:22-58 | raises when the retries run out, else reads the page that answered |
| Synonyms.EntriesRead | src/scrappers/synonyms.py:47-53 | reading succeeds exactly when every `defpara` has an `eb` span, and then gives one entry per `defpara` |
| Synonyms.EntriesInOrder | src/scrappers/synonyms.py:47-53 | the `i`-th entry is the stripped `{synonym, examples}` read from the `i`-th `defpara` |

## Left out

- HTTP requests, sessions and the `Retry`/`HTTPAdapter` configuration of the meanings scraper are foreign network calls. The synonyms scraper's network is a function from attempt number to outcome.
- BeautifulSoup parsing and CSS-class lookups are not modelled. The parse results are node datatypes holding the texts the parser returns, and `decompose()` is a foreign tree mutation.
- File I/O is left out: CSV reading and writing, audio download and saving, and `Package.write_to_file`. File existence is the parameter `isFile`, and the audio directory (config/settings.py) is a parameter.
- Meanings.ParseEntry: an exception from the audio download other than `RequestException` would drop the entry; the download is not modelled, so it never does.
- Random choices are left out: user agents, `random.uniform` sleeps and jitter, and `random.getrandbits` deck ids. Only the integer base delay 2^k is kept, and the deck id is a parameter.
- Printing, and the sleeps between CSV rows, are left out.
- src/scrappers/collocations.py is not part of this model. It maps parsed elements to dicts, and its result is an abstract parameter of the CSV builders.
- The stages are modelled separately and not composed. The card renderer of both CSV builders is a parameter that may raise, and `get_word_data` of the legacy builder is a parameter too. How the dataset builder's renderer fails on the title-keyed dictionary is under "## Findings".
- CSV quoting and `DictReader` parsing are not modelled. Rows are already-split cells.
- Meanings.ResolveLink: models `urljoin` against the base URL only for links with no scheme and no dot segments (network-path, root-relative, relative).
- Text.Lower: only ASCII letters are lowered. The test is for "american", which is ASCII, but non-ASCII capitals are kept.
- HtmlGenerator.CardRuleCount: the count holds only for texts without `<`. The source inserts texts unescaped, and UnescapedWordAddsRule shows the count can change otherwise.
- HtmlGenerator.GenerateHtml: a `collocation`, `example` or `synonym` key present with value `None` is rendered as `None` by the source; the model has no such value and treats it as a missing key. An `examples` key present with value `None` makes the source raise `TypeError` when it iterates over it (src/html/html_generator.py:62,65); the model cannot express it, and a missing key gives an empty list.
- DatasetCsv.EntryTags: a part of speech that is a list rather than a string (membership instead of substring test) is not modelled. Only texts and values on which the test raises are.
- AnkiDeck.CreateAnkiDeck: what genanki does with a `None` model (an unknown `model_name`) is not modelled. The note just carries `None`.
- Synonyms.GetSynonyms: the request URL and headers are not modelled. Neither is the final sleep.

## Findings

| source | as written | input that shows it | evidently intended | confidence | as-written member | corrected member |
|---|---|---|---|---|---|---|
| src/dataset/create_csv.py:25,38 | the title-keyed dictionary from `get_word_meanings` is handed to `generate_html_from_json`, whose first step `word_data['word']` (src/html/html_generator.py:14) raises `KeyError` on it | rows `[["hello"]]` with a lookup that returns `{"Cambridge": [...]}`: only the header is written and the loop raises | the renderer is given a card record it can read, so every word gets its row | not executed | DatasetCsv.TitleKeyedRunStops | DatasetCsv.IntendedWritesEveryWord |
