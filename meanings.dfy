/** `get_word_meanings` after the page has been fetched and parsed: the
    dictionary sections and entries the parser found are turned into the
    `word_data` dictionary, keyed by dictionary title. The parse tree is
    given as nodes holding the texts the parser extracts. */
module Meanings {
  import opened Wrappers
  import opened Text

  const BaseUrl := "https://dictionary.cambridge.org/dictionary/english/"
  /** Scheme and host of `BaseUrl`, where a root-relative link resolves. */
  const SiteRoot := "https://dictionary.cambridge.org"
  const DefaultTitle := "Cambridge"

  // ---------------------------------------------------------------------------
  // What the parser finds. `None` stands for an element `find` did not find.

  /** A definition block: level tag text, extra-info text, definition text, example texts. */
  datatype DefinitionNode = DefinitionNode(
    levelTag: Option<string>, extraInfo: Option<string>, meaning: Option<string>, examples: seq<string>)

  /** A sense: its heading text and its definition blocks. */
  datatype SenseNode = SenseNode(title: Option<string>, definitions: seq<DefinitionNode>)

  /** The `<source type="audio/mpeg">` tag, whose `src` attribute may be missing. */
  datatype AudioTag = AudioTag(src: Option<string>)

  /** An entry body: head word, part of speech text, IPA text, audio tag, senses. */
  datatype EntryNode = EntryNode(
    headword: Option<string>, posgram: Option<string>, ipa: Option<string>,
    audio: Option<AudioTag>, senses: seq<SenseNode>)

  /** A dictionary section: its heading text and its entry bodies. */
  datatype SectionNode = SectionNode(heading: Option<string>, entries: seq<EntryNode>)

  // ---------------------------------------------------------------------------
  // What the scraper builds.

  datatype MeaningData = MeaningData(extraInfo: string, level: Option<string>, meaning: Option<string>, examples: seq<string>)
  datatype Context = Context(title: Option<string>, meanings: seq<MeaningData>)
  datatype WordEntry = WordEntry(
    word: string, phonetic: Option<string>, audioUrl: Option<string>, partOfSpeech: string, contexts: seq<Context>)

  /** `word_data`: a Python dictionary, i.e. its keys in insertion order and
      the list stored under each key. */
  datatype WordData = WordData(keys: seq<string>, values: map<string, seq<WordEntry>>)

  /** Keys are distinct, are exactly the dictionary's keys, and every list is
      non-empty. */
  ghost predicate Valid(d: WordData) {
    && (forall i, j | 0 <= i < j < |d.keys| :: d.keys[i] != d.keys[j])
    && (forall t :: t in d.values <==> t in d.keys)
    && (forall t | t in d.values :: d.values[t] != [])
  }

  /** `word_data.get(title, [])`. */
  function Lookup(d: WordData, title: string): seq<WordEntry> {
    if title in d.values then d.values[title] else []
  }

  // ---------------------------------------------------------------------------
  // Titles and links.

  /** The dictionary title of a section: the stripped text after the last
      `|` of its heading, or "Cambridge" when it has no heading. */
  function DictionaryTitle(heading: Option<string>): string {
    match heading
    case None => DefaultTitle
    case Some(text) => Strip(LastField(text, '|'))
  }

  /** Every character of `s.strip()` comes from `s`. */
  lemma StripKeeps(s: string, c: char)
    requires c in Strip(s)
    ensures c in s
  {
    var t := TrimStart(s);
    var r := TrimEnd(t);
    var k :| 0 <= k < |r| && r[k] == c;
    assert t[k] == c;
    assert s[|s| - |t| + k] == c;
  }

  /** A heading's title holds no `|`. */
  lemma TitleHasNoBar(text: string)
    ensures '|' !in DictionaryTitle(Some(text))
  {
    LastFieldIsSuffix(text, '|');
    if '|' in DictionaryTitle(Some(text)) {
      StripKeeps(LastField(text, '|'), '|');
    }
  }

  /** A heading without `|` gives the whole stripped heading as its title. */
  lemma TitleWithoutBar(text: string)
    requires '|' !in text
    ensures DictionaryTitle(Some(text)) == Strip(text)
  {
    LastFieldWithoutSep(text, '|');
  }

  /** `"american" in title.lower()`. */
  predicate IsAmerican(title: string) {
    Contains(Lower(title), "american")
  }

  /** `urljoin(BaseUrl, ref)` for the links the page holds: a
      network-path link takes the base's scheme, a root-relative link the
      base's host, and any other link is resolved against the base directory. */
  function ResolveLink(ref: string): string {
    if StartsWith(ref, "//") then "https:" + ref
    else if StartsWith(ref, "/") then SiteRoot + ref
    else BaseUrl + ref
  }

  /** The audio link: kept when it starts with `http`, otherwise resolved. */
  function AudioUrl(src: string): string {
    if StartsWith(src, "http") then src else ResolveLink(src)
  }

  /** An audio link is left alone when it starts with `http`; any other link
      becomes an `https` link, on the dictionary's host unless it names one. */
  lemma AudioUrlRule(src: string)
    ensures StartsWith(src, "http") ==> AudioUrl(src) == src
    ensures !StartsWith(src, "http") ==> StartsWith(AudioUrl(src), "https:")
    ensures !StartsWith(src, "http") && !StartsWith(src, "//") ==> StartsWith(AudioUrl(src), SiteRoot + "/")
  {
    if !StartsWith(src, "http") {
      var r := AudioUrl(src);
      if StartsWith(src, "//") {
        assert r == "https:" + src;
      } else if StartsWith(src, "/") {
        assert r == SiteRoot + src;
        assert (SiteRoot + "/") <= r by {
          assert src[0] == '/';
          assert r[|SiteRoot|] == '/';
          assert r[..|SiteRoot|] == SiteRoot;
        }
      } else {
        assert BaseUrl == SiteRoot + "/dictionary/english/";
        assert r == SiteRoot + ("/dictionary/english/" + src);
      }
    }
  }

  // ---------------------------------------------------------------------------
  // One entry, as functions; `None` means the parse raised.

  function StripAll(xs: seq<string>): (r: seq<string>)
    ensures |r| == |xs|
  {
    if xs == [] then [] else StripAll(xs[..|xs| - 1]) + [Strip(xs[|xs| - 1])]
  }

  /** One more string of a prefix adds its stripped form. */
  lemma StripAllSnoc(xs: seq<string>, k: nat)
    requires k < |xs|
    ensures StripAll(xs[..k + 1]) == StripAll(xs[..k]) + [Strip(xs[k])]
  {
    assert xs[..k + 1][..k] == xs[..k];
  }

  /** One definition block; raises when it has no extra-info element. */
  function MeaningOf(d: DefinitionNode): Option<MeaningData> {
    if d.extraInfo.None? then None
    else
      var level := if d.levelTag.Some? then Some(Strip(d.levelTag.value)) else None;
      var meaning := if d.meaning.Some? then Some(Strip(d.meaning.value)) else None;
      Some(MeaningData(d.extraInfo.value, level, meaning, StripAll(d.examples)))
  }

  function MeaningsOf(ds: seq<DefinitionNode>): Option<seq<MeaningData>> {
    if ds == [] then Some([])
    else
      match MeaningsOf(ds[..|ds| - 1])
      case None => None
      case Some(ms) =>
        match MeaningOf(ds[|ds| - 1])
        case None => None
        case Some(m) => Some(ms + [m])
  }

  function ContextOf(s: SenseNode): Option<Context> {
    match MeaningsOf(s.definitions)
    case None => None
    case Some(ms) => Some(Context(s.title, ms))
  }

  function ContextsOf(ss: seq<SenseNode>): Option<seq<Context>> {
    if ss == [] then Some([])
    else
      match ContextsOf(ss[..|ss| - 1])
      case None => None
      case Some(cs) =>
        match ContextOf(ss[|ss| - 1])
        case None => None
        case Some(c) => Some(cs + [c])
  }

  /** One entry; raises when the head word or the part of speech is missing,
      when the audio tag has no `src`, or when a definition block raises. */
  function EntryOf(e: EntryNode): Option<WordEntry> {
    if e.headword.None? || e.posgram.None? then None
    else if e.audio.Some? && e.audio.value.src.None? then None
    else
      var phonetic := if e.ipa.Some? then Some(Strip(e.ipa.value)) else None;
      var audioUrl := if e.audio.Some? then Some(AudioUrl(e.audio.value.src.value)) else None;
      match ContextsOf(e.senses)
      case None => None
      case Some(cs) => Some(WordEntry(e.headword.value, phonetic, audioUrl, e.posgram.value, cs))
  }

  // ---------------------------------------------------------------------------
  // One entry, as the scraper builds it.

  /** The definition-block body: level, extra info, meaning, examples loop. */
  method ParseDefinition(d: DefinitionNode) returns (r: Option<MeaningData>)
    ensures r == MeaningOf(d)
  {
    var level: Option<string> := None;
    if d.levelTag.Some? {
      level := Some(Strip(d.levelTag.value));
    }
    if d.extraInfo.None? {
      return None;
    }
    var extraInfo := d.extraInfo.value;
    var meaning: Option<string> := None;
    if d.meaning.Some? {
      meaning := Some(Strip(d.meaning.value));
    }
    var examples: seq<string> := [];
    for k := 0 to |d.examples|
      invariant examples == StripAll(d.examples[..k])
    {
      StripAllSnoc(d.examples, k);
      examples := examples + [Strip(d.examples[k])];
    }
    assert d.examples[..|d.examples|] == d.examples;
    return Some(MeaningData(extraInfo, level, meaning, examples));
  }

  /** One more readable block of a prefix adds its meaning. */
  lemma MeaningsSnoc(ds: seq<DefinitionNode>, k: nat, ms: seq<MeaningData>, m: MeaningData)
    requires k < |ds| && MeaningsOf(ds[..k]) == Some(ms) && MeaningOf(ds[k]) == Some(m)
    ensures MeaningsOf(ds[..k + 1]) == Some(ms + [m])
  {
    assert ds[..k + 1][..k] == ds[..k];
  }

  lemma {:induction false} MeaningsStayNone(ds: seq<DefinitionNode>, k: nat)
    requires k <= |ds| && MeaningsOf(ds[..k]).None?
    ensures MeaningsOf(ds).None?
    decreases |ds| - k
  {
    if k < |ds| {
      assert ds[..k + 1][..k] == ds[..k];
      MeaningsStayNone(ds, k + 1);
    } else {
      assert ds[..k] == ds;
    }
  }

  lemma {:induction false} ContextsStayNone(ss: seq<SenseNode>, k: nat)
    requires k <= |ss| && ContextsOf(ss[..k]).None?
    ensures ContextsOf(ss).None?
    decreases |ss| - k
  {
    if k < |ss| {
      assert ss[..k + 1][..k] == ss[..k];
      ContextsStayNone(ss, k + 1);
    } else {
      assert ss[..k] == ss;
    }
  }

  /** The sense body: one meaning per definition block, in order. */
  method ParseSense(sense: SenseNode) returns (r: Option<Context>)
    ensures r == ContextOf(sense)
  {
    var ds := sense.definitions;
    var meanings: seq<MeaningData> := [];
    for k := 0 to |ds|
      invariant MeaningsOf(ds[..k]) == Some(meanings)
    {
      var m := ParseDefinition(ds[k]);
      if m.None? {
        assert ds[..k + 1][..k] == ds[..k];
        MeaningsStayNone(ds, k + 1);
        return None;
      }
      MeaningsSnoc(ds, k, meanings, m.value);
      meanings := meanings + [m.value];
    }
    assert ds[..|ds|] == ds;
    return Some(Context(sense.title, meanings));
  }

  /** The senses loop: one context per sense, in order. */
  method ParseSenses(senses: seq<SenseNode>) returns (r: Option<seq<Context>>)
    ensures r == ContextsOf(senses)
  {
    var contexts: seq<Context> := [];
    for k := 0 to |senses|
      invariant ContextsOf(senses[..k]) == Some(contexts)
    {
      assert senses[..k + 1][..k] == senses[..k];
      var c := ParseSense(senses[k]);
      if c.None? {
        ContextsStayNone(senses, k + 1);
        return None;
      }
      contexts := contexts + [c.value];
    }
    assert senses[..|senses|] == senses;
    return Some(contexts);
  }

  /** The body of the `try` for one entry; `None` when it raises. */
  method ParseEntry(e: EntryNode) returns (r: Option<WordEntry>)
    ensures r == EntryOf(e)
  {
    if e.headword.None? || e.posgram.None? {
      return None;
    }
    var word := e.headword.value;
    var partOfSpeech := e.posgram.value;
    var phonetic: Option<string> := None;
    if e.ipa.Some? {
      phonetic := Some(Strip(e.ipa.value));
    }
    var audioUrl: Option<string> := None;
    if e.audio.Some? {
      if e.audio.value.src.None? {
        return None;
      }
      var url := e.audio.value.src.value;
      if !StartsWith(url, "http") {
        url := ResolveLink(url);
      }
      audioUrl := Some(url);
    }
    var contexts := ParseSenses(e.senses);
    if contexts.None? {
      return None;
    }
    return Some(WordEntry(word, phonetic, audioUrl, partOfSpeech, contexts.value));
  }

  /** A definition block parses exactly when it has an extra-info element. */
  predicate DefinitionReadable(d: DefinitionNode) {
    d.extraInfo.Some?
  }

  /** The meanings of a sense parse exactly when every definition block has
      extra info, and then there is one per block. */
  lemma {:induction false} MeaningsRead(ds: seq<DefinitionNode>)
    ensures MeaningsOf(ds).Some? <==> forall k | 0 <= k < |ds| :: DefinitionReadable(ds[k])
    ensures MeaningsOf(ds).Some? ==> |MeaningsOf(ds).value| == |ds|
    decreases |ds|
  {
    if ds != [] {
      var init := ds[..|ds| - 1];
      assert forall k | 0 <= k < |init| :: init[k] == ds[k];
      MeaningsRead(init);
    }
  }

  /** Meaning `k` is the one read from definition block `k`: the meanings
      follow document order. */
  lemma {:induction false} MeaningsInOrder(ds: seq<DefinitionNode>)
    requires MeaningsOf(ds).Some?
    ensures |MeaningsOf(ds).value| == |ds|
    ensures forall k | 0 <= k < |ds| :: Some(MeaningsOf(ds).value[k]) == MeaningOf(ds[k])
    decreases |ds|
  {
    if ds != [] {
      var init := ds[..|ds| - 1];
      var last := ds[|ds| - 1];
      assert MeaningsOf(init).Some?;
      MeaningsInOrder(init);
      var meanings := MeaningsOf(init).value;
      assert MeaningOf(last).Some?;
      MeaningsSnoc(ds, |ds| - 1, meanings, MeaningOf(last).value);
      assert ds[..|ds|] == ds;
      forall k | 0 <= k < |ds| ensures Some(MeaningsOf(ds).value[k]) == MeaningOf(ds[k]) {
        if k < |init| {
          assert ds[k] == init[k];
        }
      }
    }
  }

  lemma {:induction false} ContextsShape(ss: seq<SenseNode>)
    ensures ContextsOf(ss).Some? <==> forall k | 0 <= k < |ss| :: MeaningsOf(ss[k].definitions).Some?
    ensures ContextsOf(ss).Some? ==>
      && |ContextsOf(ss).value| == |ss|
      && forall k | 0 <= k < |ss| :: Some(ContextsOf(ss).value[k]) == ContextOf(ss[k])
    decreases |ss|
  {
    if ss != [] {
      var init := ss[..|ss| - 1];
      var last := ss[|ss| - 1];
      ContextsShape(init);
      assert forall k | 0 <= k < |init| :: init[k] == ss[k];
      if ContextsOf(init).Some? && ContextOf(last).Some? {
        assert ContextsOf(ss).value == ContextsOf(init).value + [ContextOf(last).value];
      } else if ContextsOf(init).None? {
        var k :| 0 <= k < |init| && MeaningsOf(init[k].definitions).None?;
        assert MeaningsOf(ss[k].definitions).None?;
      } else {
        assert MeaningsOf(ss[|ss| - 1].definitions).None?;
      }
    }
  }

  lemma {:induction false} StripAllEach(xs: seq<string>)
    ensures forall k | 0 <= k < |xs| :: StripAll(xs)[k] == Strip(xs[k])
    decreases |xs|
  {
    if xs != [] {
      StripAllEach(xs[..|xs| - 1]);
    }
  }

  /** A definition block yields its stripped level (`None` without a level
      tag), its extra info, its stripped definition and its stripped examples
      in document order. */
  lemma MeaningFields(d: DefinitionNode)
    requires DefinitionReadable(d)
    ensures MeaningOf(d).Some?
    ensures MeaningOf(d).value.level == if d.levelTag.None? then None else Some(Strip(d.levelTag.value))
    ensures MeaningOf(d).value.extraInfo == d.extraInfo.value
    ensures MeaningOf(d).value.meaning == if d.meaning.None? then None else Some(Strip(d.meaning.value))
    ensures |MeaningOf(d).value.examples| == |d.examples|
    ensures forall k | 0 <= k < |d.examples| :: MeaningOf(d).value.examples[k] == Strip(d.examples[k])
  {
    StripAllEach(d.examples);
  }

  /** An entry parses exactly when it has a head word and a part of speech,
      its audio tag (if any) has a `src`, and every definition block of every
      sense has an extra-info element; it then has one context per sense and
      one meaning per definition block, in document order. */
  lemma EntryShape(e: EntryNode)
    ensures EntryOf(e).Some? <==>
      && e.headword.Some? && e.posgram.Some?
      && (e.audio.Some? ==> e.audio.value.src.Some?)
      && forall k, j | 0 <= k < |e.senses| && 0 <= j < |e.senses[k].definitions| ::
           DefinitionReadable(e.senses[k].definitions[j])
    ensures EntryOf(e).Some? ==>
      && EntryOf(e).value.word == e.headword.value
      && EntryOf(e).value.partOfSpeech == e.posgram.value
      && |EntryOf(e).value.contexts| == |e.senses|
      && forall k | 0 <= k < |e.senses| ::
           && EntryOf(e).value.contexts[k].title == e.senses[k].title
           && Some(EntryOf(e).value.contexts[k].meanings) == MeaningsOf(e.senses[k].definitions)
  {
    ContextsShape(e.senses);
    forall k | 0 <= k < |e.senses| {
      MeaningsRead(e.senses[k].definitions);
    }
  }

  // ---------------------------------------------------------------------------
  // Grouping.

  /** `if title not in word_data: word_data[title] = []`, then append. */
  function Insert(d: WordData, title: string, entry: WordEntry): WordData {
    var created := if title in d.values then d else WordData(d.keys + [title], d.values[title := []]);
    WordData(created.keys, created.values[title := created.values[title] + [entry]])
  }

  /** The entries of one section, parsed in order and stored under `title`;
      those that raise are skipped. */
  function AddEntries(d: WordData, title: string, entries: seq<EntryNode>): WordData {
    if entries == [] then d
    else
      var before := AddEntries(d, title, entries[..|entries| - 1]);
      match EntryOf(entries[|entries| - 1])
      case None => before
      case Some(entry) => Insert(before, title, entry)
  }

  /** All sections in order; American ones are skipped. */
  function Collect(sections: seq<SectionNode>): WordData {
    if sections == [] then WordData([], map[])
    else
      var before := Collect(sections[..|sections| - 1]);
      var section := sections[|sections| - 1];
      var title := DictionaryTitle(section.heading);
      if IsAmerican(title) then before else AddEntries(before, title, section.entries)
  }

  /** The entry loop of one section. */
  method AddSection(wordData: WordData, title: string, entries: seq<EntryNode>) returns (r: WordData)
    ensures r == AddEntries(wordData, title, entries)
  {
    var keys := wordData.keys;
    var values := wordData.values;
    for j := 0 to |entries|
      invariant WordData(keys, values) == AddEntries(wordData, title, entries[..j])
    {
      assert entries[..j + 1][..j] == entries[..j];
      var entry := ParseEntry(entries[j]);
      if entry.None? {
        continue;
      }
      if title !in values {
        keys := keys + [title];
        values := values[title := []];
      }
      values := values[title := values[title] + [entry.value]];
    }
    assert entries[..|entries|] == entries;
    return WordData(keys, values);
  }

  /** The section loop of `get_word_meanings`. */
  method GetWordMeanings(sections: seq<SectionNode>) returns (wordData: WordData)
    ensures wordData == Collect(sections)
  {
    wordData := WordData([], map[]);
    for i := 0 to |sections|
      invariant wordData == Collect(sections[..i])
    {
      assert sections[..i + 1][..i] == sections[..i];
      var section := sections[i];
      var title := DictionaryTitle(section.heading);
      if IsAmerican(title) {
        continue;
      }
      wordData := AddSection(wordData, title, section.entries);
    }
    assert sections[..|sections|] == sections;
  }

  /** The parsed entries of a list, in order, without those that raise. */
  function Parsed(entries: seq<EntryNode>): seq<WordEntry> {
    if entries == [] then []
    else
      Parsed(entries[..|entries| - 1])
      + (match EntryOf(entries[|entries| - 1]) case None => [] case Some(e) => [e])
  }

  /** Everything stored under `title`: the parsed entries of every
      non-American section carrying that title, in document order. */
  function Gathered(sections: seq<SectionNode>, title: string): seq<WordEntry> {
    if sections == [] then []
    else
      var section := sections[|sections| - 1];
      var t := DictionaryTitle(section.heading);
      Gathered(sections[..|sections| - 1], title)
      + (if t == title && !IsAmerican(t) then Parsed(section.entries) else [])
  }

  /** Inserting keeps the dictionary well formed, appends to the one list it
      names and leaves every other list alone. */
  lemma InsertLookup(d: WordData, title: string, entry: WordEntry)
    requires Valid(d)
    ensures Valid(Insert(d, title, entry))
    ensures forall u :: Lookup(Insert(d, title, entry), u) == Lookup(d, u) + (if u == title then [entry] else [])
    ensures Insert(d, title, entry).keys == d.keys + (if title in d.values then [] else [title])
  {
  }

  lemma {:induction false} AddEntriesLookup(d: WordData, title: string, entries: seq<EntryNode>)
    requires Valid(d)
    ensures Valid(AddEntries(d, title, entries))
    ensures forall u :: Lookup(AddEntries(d, title, entries), u) == Lookup(d, u) + (if u == title then Parsed(entries) else [])
    decreases |entries|
  {
    if entries != [] {
      var init := entries[..|entries| - 1];
      AddEntriesLookup(d, title, init);
      match EntryOf(entries[|entries| - 1])
      case None =>
      case Some(entry) =>
        InsertLookup(AddEntries(d, title, init), title, entry);
    }
  }

  /** The result is a well-formed dictionary whose list under each title is
      exactly the parsed entries of the non-American sections with that
      title, in document order, failed entries left out. */
  lemma {:induction false} CollectLookup(sections: seq<SectionNode>)
    ensures Valid(Collect(sections))
    ensures forall u :: Lookup(Collect(sections), u) == Gathered(sections, u)
    decreases |sections|
  {
    if sections != [] {
      var init := sections[..|sections| - 1];
      CollectLookup(init);
      var section := sections[|sections| - 1];
      var title := DictionaryTitle(section.heading);
      if !IsAmerican(title) {
        AddEntriesLookup(Collect(init), title, section.entries);
      }
    }
  }

  /** A title is a key exactly when at least one entry was stored under it;
      an American title never is. */
  lemma KeyPresence(sections: seq<SectionNode>, title: string)
    ensures title in Collect(sections).values <==> Gathered(sections, title) != []
    ensures title in Collect(sections).values <==> title in Collect(sections).keys
    ensures IsAmerican(title) ==> title !in Collect(sections).values
  {
    CollectLookup(sections);
    if IsAmerican(title) {
      AmericanGathersNothing(sections, title);
    }
  }

  /** The parsed entries of every section, in document order. */
  function AllParsed(sections: seq<SectionNode>): seq<WordEntry> {
    if sections == [] then []
    else AllParsed(sections[..|sections| - 1]) + Parsed(sections[|sections| - 1].entries)
  }

  lemma CambridgeIsNotAmerican()
    ensures !IsAmerican(DefaultTitle)
  {
    var low := Lower(DefaultTitle);
    assert low == "cambridge";
    forall i | 0 <= i <= |low| - |"american"|
      ensures !("american" <= low[i..])
    {
      assert low[i] != 'a' || low[i + 2] != 'e';
    }
  }

  /** A page whose sections have no heading is stored whole under
      "Cambridge", and nothing is stored under any other title. */
  lemma {:induction false} HeadinglessUnderCambridge(sections: seq<SectionNode>, title: string)
    requires forall i | 0 <= i < |sections| :: sections[i].heading.None?
    ensures Lookup(Collect(sections), DefaultTitle) == AllParsed(sections)
    ensures title != DefaultTitle ==> Lookup(Collect(sections), title) == []
  {
    CollectLookup(sections);
    HeadinglessGathered(sections, title);
  }

  lemma {:induction false} HeadinglessGathered(sections: seq<SectionNode>, title: string)
    requires forall i | 0 <= i < |sections| :: sections[i].heading.None?
    ensures Gathered(sections, DefaultTitle) == AllParsed(sections)
    ensures title != DefaultTitle ==> Gathered(sections, title) == []
    decreases |sections|
  {
    if sections != [] {
      HeadinglessGathered(sections[..|sections| - 1], title);
      CambridgeIsNotAmerican();
    }
  }

  /** Whether a title is American does not depend on its letter case. */
  lemma IsAmericanIgnoresCase(title: string)
    ensures IsAmerican(Lower(title)) == IsAmerican(title)
  {
    assert Lower(Lower(title)) == Lower(title);
  }

  lemma {:induction false} AmericanGathersNothing(sections: seq<SectionNode>, title: string)
    requires IsAmerican(title)
    ensures Gathered(sections, title) == []
    decreases |sections|
  {
    if sections != [] {
      AmericanGathersNothing(sections[..|sections| - 1], title);
    }
  }
}
