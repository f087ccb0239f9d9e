/** The flashcard back side: `generate_html_from_json` turns a word record,
    its collocations and its synonyms into one HTML fragment, appending
    piece after piece to a string. */
module HtmlGenerator {
  import opened Wrappers
  import opened Text

  /** One meaning of the word record: its text, its CEFR level badge text and its examples. */
  datatype Meaning = Meaning(meaning: Option<string>, level: Option<string>, examples: seq<string>)

  /** The word record the card is rendered from. */
  datatype WordCard = WordCard(
    word: string,
    phonetic: Option<string>,
    partOfSpeech: string,
    meanings: seq<Meaning>)

  /** A collocation dictionary; `None` stands for a key the dictionary lacks. */
  datatype Collocation = Collocation(collocation: Option<string>, example: Option<string>)

  /** A synonym dictionary; `None` stands for a key the dictionary lacks. */
  datatype Synonym = Synonym(synonym: Option<string>, examples: Option<seq<string>>)

  /** `d.get(key, '')` on a string-valued key. */
  function OrEmpty(o: Option<string>): string {
    match o
    case Some(s) => s
    case None => ""
  }

  /** `d.get('examples', '')`: iterating over the default `''` yields nothing. */
  function ExamplesOrNone(o: Option<seq<string>>): seq<string> {
    match o
    case Some(xs) => xs
    case None => []
  }

  /** Python truthiness of an optional list argument. */
  predicate NonEmpty<T>(o: Option<seq<T>>) {
    o.Some? && o.value != []
  }

  // ---------------------------------------------------------------------------
  // Markup pieces. Each fixed piece of the templates is written with these two
  // builders and named once; long attribute strings are split into short
  // literals only so that the verifier can inspect them.

  /** `<name attrs>` */
  function Open(name: string, attrs: string): string {
    "<" + name + attrs + ">"
  }

  /** `</name>` */
  function Close(name: string): string {
    "</" + name + ">"
  }

  const Indent := "\n    "
  const DeepIndent := "\n        "
  const Space := " "
  const TwoSpaces := "  "
  const UkPrefix := "UK "
  const Bullet := "• "
  const ColonSpace := ": "
  const Colon := ":"
  const CollocationsLabel := " | Collocations"
  const SynonymsLabel := " | Synonyms"
  const NoneLabel := "None"

  const DivEnd := Close("div")
  const SpanStart := Open("span", "")
  const SpanEnd := Close("span")
  const LineBreak := Open("br", " /")
  const ListStart := Open("ul", "")
  const ListEnd := Close("ul")
  const ItemStart := Open("li", "")
  const ItemEnd := Close("li")
  const StrongStart := Open("strong", "")
  const StrongEnd := Close("strong")

  /** `<hr style='border: 1px solid #fec400;' />`, the yellow line. */
  const YellowRule := Open("hr", " style='border: 1px solid " + "#fec400;' /")
  /** `<!-- Yellow line after phonetic -->` */
  const RuleComment := Open("!--", " Yellow line after " + "phonetic --")
  const WordStart := Open("div", " style=\"font-size: 24px; " + "font-weight: bold;\"")
  const InfoStart := Open("div", " style=\"font-style: italic; " + "color: #555;\"")
  const PhoneticStart := Open("span", " style=\"color: #3949ab;\"")
  const BlockStart := Open("div", " style='margin-bottom: 20px;'")
  const LeftStart := Open("div", " style='text-align: left;'")
  const BadgeStart := Open("span", " style='background-color:#3949ab;"
    + "color:white;padding:3px;" + "border-radius:5px;'")
  const MeaningStart := Open("div", " style='text-align: left; "
    + "font-weight: bold; " + "margin-top: 5px;'")
  const ExampleStart := Open("div", " style='text-align: left; "
    + "margin-left: 20px; " + "font-style: italic; " + "margin-top: 5px;'")
  const BannerStart := Open("div", " style=\"background-color: #FFCC00; "
    + "padding: 10px; " + "font-family: Arial, sans-serif; "
    + "font-size: 14px; " + "font-weight: bold;\"")

  // ---------------------------------------------------------------------------
  // The card, as a function of the inputs.

  /** Renders each element and concatenates the results in order. */
  function Concat<T>(xs: seq<T>, render: T -> string): string {
    if xs == [] then "" else Concat(xs[..|xs| - 1], render) + render(xs[|xs| - 1])
  }

  /** The f-string header: word, part of speech, "UK " + phonetic, yellow rule. */
  function Header(word: string, partOfSpeech: string, phonetic: Option<string>): string {
    WordLine(word) + InfoBlock(partOfSpeech, phonetic) + RuleLine()
  }

  function WordLine(word: string): string {
    Indent + WordStart + word + DivEnd
  }

  function InfoBlock(partOfSpeech: string, phonetic: Option<string>): string {
    Indent + InfoStart + PosLine(partOfSpeech) + PhoneticLine(phonetic) + Indent + DivEnd
  }

  function PosLine(partOfSpeech: string): string {
    DeepIndent + SpanStart + partOfSpeech + SpanEnd + Space + LineBreak
  }

  function PhoneticLine(phonetic: Option<string>): string {
    DeepIndent + PhoneticStart + UkPrefix + Str(phonetic) + SpanEnd
  }

  function RuleLine(): string {
    Indent + YellowRule + TwoSpaces + RuleComment + Indent
  }

  /** The text of the level badge: the level when it is truthy, else the literal "None". */
  function LevelLabel(level: Option<string>): (r: string)
    ensures Truthy(level) ==> r == level.value
    ensures !Truthy(level) ==> r == "None"
  {
    if Truthy(level) then level.value else NoneLabel
  }

  function LevelBadge(level: Option<string>): string {
    BadgeStart + LevelLabel(level) + SpanEnd
  }

  /** The opening of a meaning block: block div, badge line, meaning line. */
  function MeaningHead(m: Meaning): string {
    BlockStart + (LeftStart + LevelBadge(m.level) + DivEnd) + (MeaningStart + Str(m.meaning) + DivEnd)
  }

  function ExampleLine(example: string): string {
    ExampleStart + Bullet + example + DivEnd
  }

  /** One meaning: its head, one line per example, the closing div and a yellow rule. */
  function MeaningBlock(m: Meaning): string {
    MeaningHead(m) + Concat(m.examples, ExampleLine) + DivEnd + YellowRule
  }

  function Banner(word: string, caption: string): string {
    BannerStart + word + caption + DivEnd
  }

  function CollocationLine(c: Collocation): string {
    ItemStart + StrongStart + OrEmpty(c.collocation) + StrongEnd + ColonSpace + OrEmpty(c.example) + ItemEnd
  }

  function CollocationsSection(word: string, cs: seq<Collocation>): string {
    Banner(word, CollocationsLabel) + ListStart + Concat(cs, CollocationLine) + ListEnd + YellowRule
  }

  function SynonymHead(s: Synonym): string {
    ItemStart + StrongStart + OrEmpty(s.synonym) + StrongEnd + Colon + ItemEnd
  }

  function SynonymExample(example: string): string {
    ItemStart + example + ItemEnd
  }

  function SynonymBlock(s: Synonym): string {
    SynonymHead(s) + ListStart + Concat(ExamplesOrNone(s.examples), SynonymExample) + ListEnd
  }

  function SynonymsSection(word: string, ss: seq<Synonym>): string {
    Banner(word, SynonymsLabel) + ListStart + Concat(ss, SynonymBlock) + ListEnd
  }

  function CollocationsPart(word: string, collocations: Option<seq<Collocation>>): string {
    if NonEmpty(collocations) then CollocationsSection(word, collocations.value) else ""
  }

  function SynonymsPart(word: string, synonyms: Option<seq<Synonym>>): string {
    if NonEmpty(synonyms) then SynonymsSection(word, synonyms.value) else ""
  }

  /** The whole card. */
  function Card(d: WordCard, collocations: Option<seq<Collocation>>, synonyms: Option<seq<Synonym>>): string {
    Header(d.word, d.partOfSpeech, d.phonetic)
    + Concat(d.meanings, MeaningBlock)
    + CollocationsPart(d.word, collocations)
    + SynonymsPart(d.word, synonyms)
  }

  /** Regrouping a concatenation; stated once so that the proofs below never
      compare the template strings character by character. */
  lemma AppendAssoc(a: string, b: string, c: string)
    ensures a + b + c == a + (b + c)
  {
  }

  lemma AppendNothing(a: string)
    ensures a + "" == a
  {
  }

  /** The card, grouped as the generator builds it: header and meaning
      blocks first, then the optional sections. */
  lemma CardParts(d: WordCard, collocations: Option<seq<Collocation>>, synonyms: Option<seq<Synonym>>)
    ensures Card(d, collocations, synonyms)
      == Header(d.word, d.partOfSpeech, d.phonetic) + Concat(d.meanings, MeaningBlock)
         + (CollocationsPart(d.word, collocations) + SynonymsPart(d.word, synonyms))
  {
    AppendAssoc(Header(d.word, d.partOfSpeech, d.phonetic) + Concat(d.meanings, MeaningBlock),
      CollocationsPart(d.word, collocations), SynonymsPart(d.word, synonyms));
  }

  /** Rendering one more element of a prefix appends that element's markup. */
  lemma ConcatSnoc<T>(xs: seq<T>, render: T -> string, i: nat)
    requires i < |xs|
    ensures Concat(xs[..i + 1], render) == Concat(xs[..i], render) + render(xs[i])
  {
    assert xs[..i + 1][..i] == xs[..i];
  }

  // ---------------------------------------------------------------------------
  // The generator itself.

  /** `generate_html_from_json`: appends the header, each meaning block, then
      the optional collocation and synonym sections to one string. */
  method GenerateHtml(wordData: WordCard, collocations: Option<seq<Collocation>>, synonyms: Option<seq<Synonym>>)
    returns (html: string)
    ensures html == Card(wordData, collocations, synonyms)
  {
    var word := wordData.word;
    html := Header(word, wordData.partOfSpeech, wordData.phonetic);
    ghost var header := html;

    var meanings := wordData.meanings;
    var i := 0;
    AppendNothing(header);
    while i < |meanings|
      invariant 0 <= i <= |meanings|
      invariant html == header + Concat(meanings[..i], MeaningBlock)
    {
      var block := AppendMeaning(meanings[i]);
      ConcatSnoc(meanings, MeaningBlock, i);
      AppendAssoc(header, Concat(meanings[..i], MeaningBlock), block);
      html := html + block;
      i := i + 1;
    }
    assert meanings[..i] == meanings;
    var sections := AppendOptionalSections(word, collocations, synonyms);
    html := html + sections;
    AppendAssoc(header, Concat(meanings, MeaningBlock), sections);
    CardParts(wordData, collocations, synonyms);
  }

  /** The two `if` statements closing the generator: the collocations section
      when there are collocations, then the synonyms section when there are
      synonyms. */
  method AppendOptionalSections(word: string, collocations: Option<seq<Collocation>>, synonyms: Option<seq<Synonym>>)
    returns (html: string)
    ensures html == CollocationsPart(word, collocations) + SynonymsPart(word, synonyms)
  {
    html := "";
    if NonEmpty(collocations) {
      var section := AppendCollocations(word, collocations.value);
      html := html + section;
    }
    assert html == CollocationsPart(word, collocations);
    if NonEmpty(synonyms) {
      var section := AppendSynonyms(word, synonyms.value);
      html := html + section;
    } else {
      AppendNothing(html);
    }
  }

  /** The body of the loop over meanings: the badge, the meaning, one line per
      example, then the closing div and the yellow rule. */
  method AppendMeaning(meaning: Meaning) returns (html: string)
    ensures html == MeaningBlock(meaning)
  {
    var levelTag := if Truthy(meaning.level) then BadgeStart + meaning.level.value + SpanEnd
                    else BadgeStart + NoneLabel + SpanEnd;
    html := BlockStart;
    html := html + (LeftStart + levelTag + DivEnd);
    html := html + (MeaningStart + Str(meaning.meaning) + DivEnd);
    ghost var head := html;
    assert head == MeaningHead(meaning);
    AppendNothing(head);

    var examples := meaning.examples;
    var j := 0;
    while j < |examples|
      invariant 0 <= j <= |examples|
      invariant html == head + Concat(examples[..j], ExampleLine)
    {
      ConcatSnoc(examples, ExampleLine, j);
      AppendAssoc(head, Concat(examples[..j], ExampleLine), ExampleLine(examples[j]));
      html := html + (ExampleStart + Bullet + examples[j] + DivEnd);
      j := j + 1;
    }
    assert examples[..j] == examples;
    html := html + DivEnd;
    html := html + YellowRule;
  }

  /** The collocations branch: banner, one list item per collocation, yellow rule. */
  method AppendCollocations(word: string, items: seq<Collocation>) returns (html: string)
    ensures html == CollocationsSection(word, items)
  {
    html := Banner(word, CollocationsLabel);
    html := html + ListStart;
    ghost var opening := html;
    AppendNothing(opening);
    var k := 0;
    while k < |items|
      invariant 0 <= k <= |items|
      invariant html == opening + Concat(items[..k], CollocationLine)
    {
      var collocation := OrEmpty(items[k].collocation);
      var example := OrEmpty(items[k].example);
      AppendAssoc(opening, Concat(items[..k], CollocationLine), CollocationLine(items[k]));
      ConcatSnoc(items, CollocationLine, k);
      html := html + (ItemStart + StrongStart + collocation + StrongEnd + ColonSpace + example + ItemEnd);
      k := k + 1;
    }
    assert items[..k] == items;
    html := html + ListEnd;
    html := html + YellowRule;
  }

  /** The synonyms branch: banner, then per synonym a list item and a nested
      list of its examples; no yellow rule follows. */
  method AppendSynonyms(word: string, items: seq<Synonym>) returns (html: string)
    ensures html == SynonymsSection(word, items)
  {
    html := Banner(word, SynonymsLabel);
    html := html + ListStart;
    ghost var opening := html;
    AppendNothing(opening);
    var k := 0;
    while k < |items|
      invariant 0 <= k <= |items|
      invariant html == opening + Concat(items[..k], SynonymBlock)
    {
      var block := AppendSynonym(items[k]);
      AppendAssoc(opening, Concat(items[..k], SynonymBlock), block);
      ConcatSnoc(items, SynonymBlock, k);
      html := html + block;
      k := k + 1;
    }
    assert items[..k] == items;
    html := html + ListEnd;
  }

  /** One synonym: its list item, then its examples as a nested list. */
  method AppendSynonym(item: Synonym) returns (html: string)
    ensures html == SynonymBlock(item)
  {
    var synonym := OrEmpty(item.synonym);
    var examples := ExamplesOrNone(item.examples);
    html := ItemStart + StrongStart + synonym + StrongEnd + Colon + ItemEnd;
    html := html + ListStart;
    ghost var opening := html;
    AppendNothing(opening);
    var j := 0;
    while j < |examples|
      invariant 0 <= j <= |examples|
      invariant html == opening + Concat(examples[..j], SynonymExample)
    {
      AppendAssoc(opening, Concat(examples[..j], SynonymExample), SynonymExample(examples[j]));
      ConcatSnoc(examples, SynonymExample, j);
      html := html + (ItemStart + examples[j] + ItemEnd);
      j := j + 1;
    }
    assert examples[..j] == examples;
    html := html + ListEnd;
  }

  // ---------------------------------------------------------------------------
  // Layout: where each element's markup sits in the card.

  /** Rendering two lists one after the other renders their concatenation. */
  lemma {:induction false} ConcatAppend<T>(xs: seq<T>, ys: seq<T>, render: T -> string)
    ensures Concat(xs + ys, render) == Concat(xs, render) + Concat(ys, render)
    decreases |ys|
  {
    if ys == [] {
      assert xs + ys == xs;
      AppendNothing(Concat(xs, render));
    } else {
      var init := ys[..|ys| - 1];
      assert (xs + ys)[..|xs + ys| - 1] == xs + init;
      ConcatAppend(xs, init, render);
      AppendAssoc(Concat(xs, render), Concat(init, render), render(ys[|ys| - 1]));
    }
  }

  /** Element `i` is rendered after every earlier element and before every
      later one. */
  lemma ConcatAt<T>(xs: seq<T>, render: T -> string, i: nat)
    requires i < |xs|
    ensures Concat(xs, render) == Concat(xs[..i], render) + render(xs[i]) + Concat(xs[i + 1..], render)
  {
    var upTo := xs[..i + 1];
    var after := xs[i + 1..];
    assert xs == upTo + after;
    ConcatAppend(upTo, after, render);
    assert upTo[..|upTo| - 1] == xs[..i];
    assert upTo[|upTo| - 1] == xs[i];
    assert Concat(upTo, render) == Concat(xs[..i], render) + render(xs[i]);
  }

  /** `a + sub + b` contains `sub`. */
  lemma ContainsMiddle(a: string, sub: string, b: string)
    ensures Contains(a + sub + b, sub)
  {
    assert sub <= (a + sub + b)[|a|..];
  }

  /** The pieces of a six-part concatenation that the header lemma needs. */
  lemma ContainsInSix(a: string, b: string, c: string, d: string, e: string, f: string)
    ensures Contains(a + b + c + d + e + f, c)
    ensures Contains(a + b + c + d + e + f, d)
    ensures Contains(a + b + c + d + e + f, b + c + d)
  {
    var s := a + b + c + d + e + f;
    AppendAssoc(a + b + c + d, e, f);
    AppendAssoc(a + b + c, d, e + f);
    ContainsMiddle(a + b + c, d, e + f);
    AppendAssoc(a + b, c, d + (e + f));
    ContainsMiddle(a + b, c, d + (e + f));
    AppendAssoc(a + b + c, d, e + f);
    AppendAssoc(a, b + c, d);
    AppendAssoc(a, b, c);
    AppendAssoc(a + (b + c + d), e, f);
    ContainsMiddle(a, b + c + d, e + f);
  }

  /** `a + b + c + d + e` contains its last three parts. */
  lemma ContainsTail(a: string, b: string, c: string, d: string, e: string)
    ensures Contains(a + b + c + d + e, c + d + e)
  {
    assert a + b + c + d + e == (a + b) + (c + d + e) + "";
    ContainsMiddle(a + b, c + d + e, "");
  }

  /** The card opens with the header. */
  lemma CardStartsWithHeader(d: WordCard, collocations: Option<seq<Collocation>>, synonyms: Option<seq<Synonym>>)
    ensures StartsWith(Card(d, collocations, synonyms), Header(d.word, d.partOfSpeech, d.phonetic))
  {
    var header := Header(d.word, d.partOfSpeech, d.phonetic);
    var rest := Concat(d.meanings, MeaningBlock) + CollocationsPart(d.word, collocations) + SynonymsPart(d.word, synonyms);
    AppendAssoc(header + Concat(d.meanings, MeaningBlock), CollocationsPart(d.word, collocations), SynonymsPart(d.word, synonyms));
    AppendAssoc(header, Concat(d.meanings, MeaningBlock), CollocationsPart(d.word, collocations) + SynonymsPart(d.word, synonyms));
    AppendAssoc(Concat(d.meanings, MeaningBlock), CollocationsPart(d.word, collocations), SynonymsPart(d.word, synonyms));
    assert Card(d, collocations, synonyms) == header + rest;
  }

  /** The header shows the word in its own div. */
  lemma HeaderHoldsWord(word: string, partOfSpeech: string, phonetic: Option<string>)
    ensures Contains(Header(word, partOfSpeech, phonetic), WordStart + word + DivEnd)
  {
    ContainsInSix(Indent, WordStart, word, DivEnd, InfoBlock(partOfSpeech, phonetic), RuleLine());
  }

  /** The header shows the part of speech in a span of the info block. */
  lemma HeaderHoldsPartOfSpeech(word: string, partOfSpeech: string, phonetic: Option<string>)
    ensures Contains(Header(word, partOfSpeech, phonetic), SpanStart + partOfSpeech + SpanEnd)
  {
    var info := InfoBlock(partOfSpeech, phonetic);
    var pos := PosLine(partOfSpeech);
    ContainsMiddle(WordLine(word), info, RuleLine());
    ContainsInSix(Indent, InfoStart, pos, PhoneticLine(phonetic), Indent, DivEnd);
    ContainsInSix(DeepIndent, SpanStart, partOfSpeech, SpanEnd, Space, LineBreak);
    ContainsTransitive(Header(word, partOfSpeech, phonetic), info, pos);
    ContainsTransitive(Header(word, partOfSpeech, phonetic), pos, SpanStart + partOfSpeech + SpanEnd);
  }

  /** The header shows "UK " + phonetic ("UK None" when there is none). */
  lemma HeaderHoldsPhonetic(word: string, partOfSpeech: string, phonetic: Option<string>)
    ensures Contains(Header(word, partOfSpeech, phonetic), UkPrefix + Str(phonetic) + SpanEnd)
  {
    var info := InfoBlock(partOfSpeech, phonetic);
    var phon := PhoneticLine(phonetic);
    ContainsMiddle(WordLine(word), info, RuleLine());
    ContainsInSix(Indent, InfoStart, PosLine(partOfSpeech), phon, Indent, DivEnd);
    ContainsTail(DeepIndent, PhoneticStart, UkPrefix, Str(phonetic), SpanEnd);
    ContainsTransitive(Header(word, partOfSpeech, phonetic), info, phon);
    ContainsTransitive(Header(word, partOfSpeech, phonetic), phon, UkPrefix + Str(phonetic) + SpanEnd);
  }

  /** Meaning `i` is rendered as its own block, after the header and the
      blocks of the meanings before it and before those of the meanings
      after it, then the optional sections. */
  lemma MeaningInOrder(d: WordCard, collocations: Option<seq<Collocation>>, synonyms: Option<seq<Synonym>>, i: nat)
    requires i < |d.meanings|
    ensures Card(d, collocations, synonyms)
      == Header(d.word, d.partOfSpeech, d.phonetic)
         + Concat(d.meanings[..i], MeaningBlock)
         + MeaningBlock(d.meanings[i])
         + Concat(d.meanings[i + 1..], MeaningBlock)
         + CollocationsPart(d.word, collocations)
         + SynonymsPart(d.word, synonyms)
  {
    var header := Header(d.word, d.partOfSpeech, d.phonetic);
    var before := Concat(d.meanings[..i], MeaningBlock);
    var after := Concat(d.meanings[i + 1..], MeaningBlock);
    ConcatAt(d.meanings, MeaningBlock, i);
    AppendAssoc(header, before + MeaningBlock(d.meanings[i]), after);
    AppendAssoc(header, before, MeaningBlock(d.meanings[i]));
  }

  /** The regrouping behind `MeaningBlockOpens`, on plain strings. */
  lemma HeadPrefix(a: string, b: string, c: string, d: string, e: string, f: string, t: string,
                   x: string, y: string, z: string)
    ensures StartsWith(a + (b + (c + d + e) + f) + t + x + y + z, a + b + c + d + e + f + t)
  {
    assert a + (b + (c + d + e) + f) + t + x + y + z == (a + b + c + d + e + f + t) + (x + y + z);
  }

  /** A meaning block opens with the level badge, which shows the level when
      it is truthy and `None` otherwise, and then the meaning text. */
  lemma MeaningBlockOpens(m: Meaning)
    ensures var shown := if Truthy(m.level) then m.level.value else NoneLabel;
      StartsWith(MeaningBlock(m),
        BlockStart + LeftStart + BadgeStart + shown + SpanEnd + DivEnd + (MeaningStart + Str(m.meaning) + DivEnd))
  {
    HeadPrefix(BlockStart, LeftStart, BadgeStart, LevelLabel(m.level), SpanEnd, DivEnd,
      MeaningStart + Str(m.meaning) + DivEnd, Concat(m.examples, ExampleLine), DivEnd, YellowRule);
  }

  /** Example `j` of a meaning is rendered as a `• example` line inside
      that meaning's block, after the earlier examples and before the later
      ones; the block then closes and a yellow rule follows. */
  lemma ExampleInOrder(m: Meaning, j: nat)
    requires j < |m.examples|
    ensures MeaningBlock(m)
      == MeaningHead(m)
         + Concat(m.examples[..j], ExampleLine)
         + (ExampleStart + Bullet + m.examples[j] + DivEnd)
         + Concat(m.examples[j + 1..], ExampleLine)
         + DivEnd + YellowRule
  {
    var head := MeaningHead(m);
    var before := Concat(m.examples[..j], ExampleLine);
    var after := Concat(m.examples[j + 1..], ExampleLine);
    var line := ExampleLine(m.examples[j]);
    ConcatAt(m.examples, ExampleLine, j);
    AppendAssoc(head, before + line, after);
    AppendAssoc(head, before, line);
  }

  /** Collocation `k` is rendered as one list item, in input order, a
      missing key giving an empty text. */
  lemma CollocationInOrder(word: string, cs: seq<Collocation>, k: nat)
    requires k < |cs|
    ensures CollocationsSection(word, cs)
      == Banner(word, CollocationsLabel) + ListStart
         + Concat(cs[..k], CollocationLine)
         + (ItemStart + StrongStart + OrEmpty(cs[k].collocation) + StrongEnd + ColonSpace + OrEmpty(cs[k].example) + ItemEnd)
         + Concat(cs[k + 1..], CollocationLine)
         + ListEnd + YellowRule
  {
    var opening := Banner(word, CollocationsLabel) + ListStart;
    var before := Concat(cs[..k], CollocationLine);
    var after := Concat(cs[k + 1..], CollocationLine);
    var line := CollocationLine(cs[k]);
    ConcatAt(cs, CollocationLine, k);
    AppendAssoc(opening, before + line, after);
    AppendAssoc(opening, before, line);
  }

  /** Synonym `k` is rendered as its list item followed by the nested list of
      its examples, in input order; a missing `examples` key gives an empty
      nested list. */
  lemma SynonymInOrder(word: string, ss: seq<Synonym>, k: nat)
    requires k < |ss|
    ensures SynonymsSection(word, ss)
      == Banner(word, SynonymsLabel) + ListStart
         + Concat(ss[..k], SynonymBlock)
         + (SynonymHead(ss[k]) + ListStart + Concat(ExamplesOrNone(ss[k].examples), SynonymExample) + ListEnd)
         + Concat(ss[k + 1..], SynonymBlock)
         + ListEnd
    ensures ss[k].examples.None? ==> SynonymBlock(ss[k]) == SynonymHead(ss[k]) + ListStart + ListEnd
  {
    var opening := Banner(word, SynonymsLabel) + ListStart;
    var before := Concat(ss[..k], SynonymBlock);
    var after := Concat(ss[k + 1..], SynonymBlock);
    var block := SynonymBlock(ss[k]);
    ConcatAt(ss, SynonymBlock, k);
    AppendAssoc(opening, before + block, after);
    AppendAssoc(opening, before, block);
    if ss[k].examples.None? {
      AppendNothing(SynonymHead(ss[k]) + ListStart);
    }
  }

  /** Each optional section is emitted exactly when its list is given and
      not empty, and it always begins with its banner. */
  lemma OptionalSections(word: string, collocations: Option<seq<Collocation>>, synonyms: Option<seq<Synonym>>)
    ensures CollocationsPart(word, collocations) != "" <==> NonEmpty(collocations)
    ensures SynonymsPart(word, synonyms) != "" <==> NonEmpty(synonyms)
    ensures NonEmpty(collocations) ==> StartsWith(CollocationsPart(word, collocations), Banner(word, CollocationsLabel))
    ensures NonEmpty(synonyms) ==> StartsWith(SynonymsPart(word, synonyms), Banner(word, SynonymsLabel))
  {
    if NonEmpty(collocations) {
      var banner := Banner(word, CollocationsLabel);
      var rest := ListStart + Concat(collocations.value, CollocationLine) + ListEnd + YellowRule;
      assert CollocationsPart(word, collocations) == banner + rest by {
        AppendAssoc(banner, ListStart, Concat(collocations.value, CollocationLine));
        AppendAssoc(banner, ListStart + Concat(collocations.value, CollocationLine), ListEnd);
        AppendAssoc(banner, ListStart + Concat(collocations.value, CollocationLine) + ListEnd, YellowRule);
      }
      assert |banner| > 0;
    }
    if NonEmpty(synonyms) {
      var banner := Banner(word, SynonymsLabel);
      var rest := ListStart + Concat(synonyms.value, SynonymBlock) + ListEnd;
      assert SynonymsPart(word, synonyms) == banner + rest by {
        AppendAssoc(banner, ListStart, Concat(synonyms.value, SynonymBlock));
        AppendAssoc(banner, ListStart + Concat(synonyms.value, SynonymBlock), ListEnd);
      }
      assert |banner| > 0;
    }
  }

  // ---------------------------------------------------------------------------
  // Counting the yellow rules. The inputs are inserted into the markup without
  // escaping, so the count below holds for texts that contain no '<'.

  /** Number of positions of `s`, from index `i` on, at which the text `<hr` starts. */
  function HrFrom(s: string, i: nat): nat
    decreases |s| - i
  {
    if i + 3 > |s| then 0
    else (if s[i] == '<' && s[i + 1] == 'h' && s[i + 2] == 'r' then 1 else 0) + HrFrom(s, i + 1)
  }

  /** Number of `<hr` tags (horizontal rules) in `s`. */
  function HrCount(s: string): nat {
    HrFrom(s, 0)
  }

  /** Neither of the last two characters is '<', so no `<hr` can straddle
      the end of `s` and whatever is appended to it. */
  predicate NoDanglingLt(s: string) {
    (|s| < 1 || s[|s| - 1] != '<') && (|s| < 2 || s[|s| - 2] != '<')
  }

  /** `s` is a fragment holding exactly `n` occurrences of `<hr`, closed at its end. */
  predicate Piece(s: string, n: nat) {
    NoDanglingLt(s) && HrCount(s) == n
  }

  /** Text without markup. */
  predicate Plain(s: string) {
    '<' !in s
  }

  predicate PlainOption(o: Option<string>) {
    o.None? || Plain(o.value)
  }

  predicate PlainMeaning(m: Meaning) {
    && PlainOption(m.meaning)
    && PlainOption(m.level)
    && forall i | 0 <= i < |m.examples| :: Plain(m.examples[i])
  }

  predicate PlainCollocation(c: Collocation) {
    PlainOption(c.collocation) && PlainOption(c.example)
  }

  predicate PlainSynonym(s: Synonym) {
    && PlainOption(s.synonym)
    && (s.examples.Some? ==> forall i | 0 <= i < |s.examples.value| :: Plain(s.examples.value[i]))
  }

  /** Every text the card is built from is free of markup. */
  predicate PlainInputs(d: WordCard, collocations: Option<seq<Collocation>>, synonyms: Option<seq<Synonym>>) {
    && Plain(d.word)
    && Plain(d.partOfSpeech)
    && PlainOption(d.phonetic)
    && (forall i | 0 <= i < |d.meanings| :: PlainMeaning(d.meanings[i]))
    && (collocations.Some? ==> forall i | 0 <= i < |collocations.value| :: PlainCollocation(collocations.value[i]))
    && (synonyms.Some? ==> forall i | 0 <= i < |synonyms.value| :: PlainSynonym(synonyms.value[i]))
  }

  lemma {:induction false} PlainFrom(s: string, i: nat)
    requires Plain(s)
    ensures HrFrom(s, i) == 0
    decreases |s| - i
  {
    if i + 3 <= |s| {
      assert s[i] in s;
      PlainFrom(s, i + 1);
    }
  }

  /** Text without markup holds no rule. */
  lemma PlainPiece(s: string)
    requires Plain(s)
    ensures Piece(s, 0)
  {
    PlainFrom(s, 0);
    if |s| >= 1 { assert s[|s| - 1] in s; }
    if |s| >= 2 { assert s[|s| - 2] in s; }
  }

  /** Counting in the second half of `a + b` is counting in `b`. */
  lemma {:induction false} ShiftFrom(a: string, b: string, j: nat)
    ensures HrFrom(a + b, |a| + j) == HrFrom(b, j)
    decreases |b| - j
  {
    if |a| + j + 3 <= |a + b| {
      ShiftFrom(a, b, j + 1);
      assert (a + b)[|a| + j] == b[j] && (a + b)[|a| + j + 1] == b[j + 1] && (a + b)[|a| + j + 2] == b[j + 2];
    }
  }

  lemma {:induction false} SplitFrom(a: string, b: string, i: nat)
    requires NoDanglingLt(a) && i <= |a|
    ensures HrFrom(a + b, i) == HrFrom(a, i) + HrFrom(b, 0)
    decreases |a| - i
  {
    if i == |a| {
      ShiftFrom(a, b, 0);
    } else {
      SplitFrom(a, b, i + 1);
      if i + 3 > |a| {
        assert (a + b)[i] == a[i];
      } else {
        assert (a + b)[i] == a[i] && (a + b)[i + 1] == a[i + 1] && (a + b)[i + 2] == a[i + 2];
      }
    }
  }

  /** Counting is additive across a join that cannot create a new `<hr`. */
  lemma AppendPiece(a: string, b: string, m: nat, n: nat)
    requires Piece(a, m) && Piece(b, n)
    ensures Piece(a + b, m + n)
  {
    SplitFrom(a, b, 0);
    var s := a + b;
    if |b| >= 1 { assert s[|s| - 1] == b[|b| - 1]; }
    if |b| >= 2 { assert s[|s| - 2] == b[|b| - 2]; }
    if |b| == 1 && |a| >= 1 { assert s[|s| - 2] == a[|a| - 1]; }
    if |b| == 0 { assert s == a; }
  }

  /** Text without markup stays so when appended to. */
  lemma PlainAppend(a: string, b: string)
    requires Plain(a) && Plain(b)
    ensures Plain(a + b)
  {
  }

  lemma OpenPiece(name: string, attrs: string)
    requires |name| >= 2 && Plain(name) && Plain(attrs)
    ensures Piece(Open(name, attrs), if name[..2] == "hr" then 1 else 0)
  {
    var s := Open(name, attrs);
    var t := name + attrs + ">";
    assert s == "<" + t;
    assert Plain(t) by {
      forall c | c in t ensures c != '<' {
        var k :| 0 <= k < |t| && t[k] == c;
        if k < |name| { assert name[k] in name; }
        else if k < |name| + |attrs| { assert attrs[k - |name|] in attrs; }
      }
    }
    PlainPiece(t);
    ShiftFrom("<", t, 0);
    assert s[1] == name[0] && s[2] == name[1];
  }

  lemma ClosePiece(name: string)
    requires Plain(name)
    ensures Piece(Close(name), 0)
  {
    var s := Close(name);
    var t := "/" + name + ">";
    assert s == "<" + t;
    assert Plain(t);
    PlainPiece(t);
    ShiftFrom("<", t, 0);
  }

  /** The yellow rule is the one template piece holding an `<hr`. */
  lemma RulePiece()
    ensures Piece(YellowRule, 1)
  {
    OpenPiece("hr", " style='border: 1px solid " + "#fec400;' /");
  }

  /** Line breaks and indentation hold no markup. */
  lemma SpacingPieces()
    ensures Piece(Indent, 0) && Piece(DeepIndent, 0) && Piece(Space, 0) && Piece(TwoSpaces, 0)
  {
    PlainPiece(Indent);
    PlainPiece(DeepIndent);
    PlainPiece(Space);
    PlainPiece(TwoSpaces);
  }

  /** The literal prefixes and separators hold no markup. */
  lemma PunctuationPieces()
    ensures Piece(UkPrefix, 0) && Piece(Bullet, 0) && Piece(ColonSpace, 0) && Piece(Colon, 0)
  {
    PlainPiece(UkPrefix);
    PlainPiece(Bullet);
    PlainPiece(ColonSpace);
    PlainPiece(Colon);
  }

  /** The captions hold no markup. */
  lemma CaptionPieces()
    ensures Piece(CollocationsLabel, 0) && Piece(SynonymsLabel, 0) && Piece(NoneLabel, 0)
  {
    PlainPiece(CollocationsLabel);
    PlainPiece(SynonymsLabel);
    PlainPiece(NoneLabel);
  }

  /** The closing div holds no `<hr`. */
  lemma DivEndPiece()
    ensures Piece(DivEnd, 0)
  {
    ClosePiece("div");
  }

  /** The span tags and the line break hold no `<hr`. */
  lemma SpanPieces()
    ensures Piece(SpanStart, 0) && Piece(SpanEnd, 0) && Piece(LineBreak, 0)
  {
    OpenPiece("span", "");
    ClosePiece("span");
    OpenPiece("br", " /");
  }

  /** The list tags hold no `<hr`. */
  lemma ListPieces()
    ensures Piece(ListStart, 0) && Piece(ListEnd, 0) && Piece(ItemStart, 0) && Piece(ItemEnd, 0)
  {
    OpenPiece("ul", "");
    ClosePiece("ul");
    OpenPiece("li", "");
    ClosePiece("li");
  }

  /** The bold tags hold no `<hr`. */
  lemma StrongPieces()
    ensures Piece(StrongStart, 0) && Piece(StrongEnd, 0)
  {
    OpenPiece("strong", "");
    ClosePiece("strong");
  }

  // The styled opening tags hold no `<hr`; one lemma each keeps every proof small.

  lemma RuleCommentPiece()
    ensures Piece(RuleComment, 0)
  {
    OpenPiece("!--", " Yellow line after " + "phonetic --");
  }

  lemma WordStartPiece()
    ensures Piece(WordStart, 0)
  {
    OpenPiece("div", " style=\"font-size: 24px; " + "font-weight: bold;\"");
  }

  lemma InfoStartPiece()
    ensures Piece(InfoStart, 0)
  {
    OpenPiece("div", " style=\"font-style: italic; " + "color: #555;\"");
  }

  lemma PhoneticStartPiece()
    ensures Piece(PhoneticStart, 0)
  {
    OpenPiece("span", " style=\"color: #3949ab;\"");
  }

  lemma BlockStartPiece()
    ensures Piece(BlockStart, 0)
  {
    OpenPiece("div", " style='margin-bottom: 20px;'");
  }

  lemma LeftStartPiece()
    ensures Piece(LeftStart, 0)
  {
    OpenPiece("div", " style='text-align: left;'");
  }

  lemma BadgeStartPiece()
    ensures Piece(BadgeStart, 0)
  {
    var a, b, c := " style='background-color:#3949ab;", "color:white;padding:3px;", "border-radius:5px;'";
    assert Plain(a) && Plain(b) && Plain(c);
    PlainAppend(a, b);
    PlainAppend(a + b, c);
    OpenPiece("span", a + b + c);
  }

  lemma MeaningStartPiece()
    ensures Piece(MeaningStart, 0)
  {
    var a, b, c := " style='text-align: left; ", "font-weight: bold; ", "margin-top: 5px;'";
    assert Plain(a) && Plain(b) && Plain(c);
    PlainAppend(a, b);
    PlainAppend(a + b, c);
    OpenPiece("div", a + b + c);
  }

  lemma ExampleStartPiece()
    ensures Piece(ExampleStart, 0)
  {
    var a, b, c, d := " style='text-align: left; ", "margin-left: 20px; ", "font-style: italic; ", "margin-top: 5px;'";
    assert Plain(a) && Plain(b) && Plain(c) && Plain(d);
    PlainAppend(a, b);
    PlainAppend(a + b, c);
    PlainAppend(a + b + c, d);
    OpenPiece("div", a + b + c + d);
  }

  /** The first half of the banner's style attribute holds no markup. */
  lemma BannerStyleHeadPlain()
    ensures Plain(" style=\"background-color: #FFCC00; " + "padding: 10px; " + "font-family: Arial, sans-serif; ")
  {
    var a, b, c := " style=\"background-color: #FFCC00; ", "padding: 10px; ", "font-family: Arial, sans-serif; ";
    assert Plain(a);
    assert Plain(b);
    assert Plain(c);
    PlainAppend(a, b);
    PlainAppend(a + b, c);
  }

  lemma BannerStartPiece()
    ensures Piece(BannerStart, 0)
  {
    var head := " style=\"background-color: #FFCC00; " + "padding: 10px; " + "font-family: Arial, sans-serif; ";
    var d, e := "font-size: 14px; ", "font-weight: bold;\"";
    BannerStyleHeadPlain();
    assert Plain(d) && Plain(e);
    PlainAppend(head, d);
    PlainAppend(head + d, e);
    OpenPiece("div", head + d + e);
  }

  // ---------------------------------------------------------------------------
  // The rule count of each part of the card.

  lemma WordLinePiece(word: string, n: nat)
    requires Piece(word, n)
    ensures Piece(WordLine(word), n)
  {
    SpacingPieces(); DivEndPiece(); WordStartPiece();
    AppendPiece(Indent, WordStart, 0, 0);
    AppendPiece(Indent + WordStart, word, 0, n);
    AppendPiece(Indent + WordStart + word, DivEnd, n, 0);
  }

  lemma PosLinePiece(partOfSpeech: string)
    requires Plain(partOfSpeech)
    ensures Piece(PosLine(partOfSpeech), 0)
  {
    SpacingPieces(); SpanPieces(); PlainPiece(partOfSpeech);
    var a := DeepIndent + SpanStart;
    AppendPiece(DeepIndent, SpanStart, 0, 0);
    AppendPiece(a, partOfSpeech, 0, 0);
    AppendPiece(a + partOfSpeech, SpanEnd, 0, 0);
    AppendPiece(a + partOfSpeech + SpanEnd, Space, 0, 0);
    AppendPiece(a + partOfSpeech + SpanEnd + Space, LineBreak, 0, 0);
  }

  lemma PhoneticLinePiece(phonetic: Option<string>)
    requires PlainOption(phonetic)
    ensures Piece(PhoneticLine(phonetic), 0)
  {
    var t := Str(phonetic);
    assert Plain(t) by {
      if phonetic.None? { assert t == NoneLabel; }
    }
    assert Piece(UkPrefix + t, 0) by {
      PunctuationPieces(); PlainPiece(t); AppendPiece(UkPrefix, t, 0, 0);
    }
    assert Piece(DeepIndent + PhoneticStart, 0) by {
      SpacingPieces(); PhoneticStartPiece(); AppendPiece(DeepIndent, PhoneticStart, 0, 0);
    }
    SpanPieces();
    AppendPiece(DeepIndent + PhoneticStart, UkPrefix + t, 0, 0);
    AppendAssoc(DeepIndent + PhoneticStart, UkPrefix, t);
    AppendPiece(DeepIndent + PhoneticStart + UkPrefix + t, SpanEnd, 0, 0);
  }

  lemma InfoBlockPiece(partOfSpeech: string, phonetic: Option<string>)
    requires Plain(partOfSpeech) && PlainOption(phonetic)
    ensures Piece(InfoBlock(partOfSpeech, phonetic), 0)
  {
    SpacingPieces(); DivEndPiece(); InfoStartPiece();
    PosLinePiece(partOfSpeech); PhoneticLinePiece(phonetic);
    var a := Indent + InfoStart;
    var p := PosLine(partOfSpeech);
    var q := PhoneticLine(phonetic);
    AppendPiece(Indent, InfoStart, 0, 0);
    AppendPiece(a, p, 0, 0);
    AppendPiece(a + p, q, 0, 0);
    AppendPiece(a + p + q, Indent, 0, 0);
    AppendPiece(a + p + q + Indent, DivEnd, 0, 0);
  }

  lemma RuleLinePiece()
    ensures Piece(RuleLine(), 1)
  {
    SpacingPieces(); RulePiece(); RuleCommentPiece();
    AppendPiece(Indent, YellowRule, 0, 1);
    AppendPiece(Indent + YellowRule, TwoSpaces, 1, 0);
    AppendPiece(Indent + YellowRule + TwoSpaces, RuleComment, 1, 0);
    AppendPiece(Indent + YellowRule + TwoSpaces + RuleComment, Indent, 1, 0);
  }

  /** The header adds one rule, the one under the phonetic line, to those in the word. */
  lemma HeaderPiece(word: string, partOfSpeech: string, phonetic: Option<string>, n: nat)
    requires Piece(word, n) && Plain(partOfSpeech) && PlainOption(phonetic)
    ensures Piece(Header(word, partOfSpeech, phonetic), n + 1)
  {
    WordLinePiece(word, n); InfoBlockPiece(partOfSpeech, phonetic); RuleLinePiece();
    var w := WordLine(word);
    var i := InfoBlock(partOfSpeech, phonetic);
    AppendPiece(w, i, n, 0);
    AppendPiece(w + i, RuleLine(), n, 1);
  }

  /** The word is inserted without escaping: a word that itself reads `<hr>`
      puts a second rule into the header. */
  lemma UnescapedWordAddsRule(partOfSpeech: string, phonetic: Option<string>)
    requires Plain(partOfSpeech) && PlainOption(phonetic)
    ensures HrCount(Header("<hr>", partOfSpeech, phonetic)) == 2
  {
    var word := "<hr>";
    assert HrFrom(word, 1) == 0;
    assert Piece(word, 1);
    HeaderPiece(word, partOfSpeech, phonetic, 1);
  }

  /** Rendering a list whose every element renders to `n` rules gives `n` rules per element. */
  lemma {:induction false} ConcatPiece<T>(xs: seq<T>, render: T -> string, n: nat)
    requires forall i | 0 <= i < |xs| :: Piece(render(xs[i]), n)
    ensures Piece(Concat(xs, render), n * |xs|)
    decreases |xs|
  {
    if xs == [] {
      PlainPiece("");
    } else {
      var init := xs[..|xs| - 1];
      assert forall i | 0 <= i < |init| :: init[i] == xs[i];
      ConcatPiece(init, render, n);
      AppendPiece(Concat(init, render), render(xs[|xs| - 1]), n * |init|, n);
      assert n * |init| + n == n * |xs|;
    }
  }

  lemma LevelBadgePiece(level: Option<string>)
    requires PlainOption(level)
    ensures Piece(LevelBadge(level), 0)
  {
    var t := LevelLabel(level);
    assert Plain(t) by {
      if !Truthy(level) { assert t == NoneLabel; }
    }
    BadgeStartPiece(); SpanPieces(); PlainPiece(t);
    AppendPiece(BadgeStart, t, 0, 0);
    AppendPiece(BadgeStart + t, SpanEnd, 0, 0);
  }

  lemma MeaningHeadPiece(m: Meaning)
    requires PlainMeaning(m)
    ensures Piece(MeaningHead(m), 0)
  {
    var badge := LevelBadge(m.level);
    var t := Str(m.meaning);
    var left := LeftStart + badge + DivEnd;
    var text := MeaningStart + t + DivEnd;
    assert Piece(left, 0) by {
      LevelBadgePiece(m.level); LeftStartPiece(); DivEndPiece();
      AppendPiece(LeftStart, badge, 0, 0);
      AppendPiece(LeftStart + badge, DivEnd, 0, 0);
    }
    assert Piece(text, 0) by {
      assert Plain(t) by {
        if m.meaning.None? { assert t == NoneLabel; }
      }
      PlainPiece(t); MeaningStartPiece(); DivEndPiece();
      AppendPiece(MeaningStart, t, 0, 0);
      AppendPiece(MeaningStart + t, DivEnd, 0, 0);
    }
    BlockStartPiece();
    AppendPiece(BlockStart, left, 0, 0);
    AppendPiece(BlockStart + left, text, 0, 0);
  }

  lemma ExampleLinePiece(example: string)
    requires Plain(example)
    ensures Piece(ExampleLine(example), 0)
  {
    ExampleStartPiece(); PunctuationPieces(); DivEndPiece(); PlainPiece(example);
    AppendPiece(ExampleStart, Bullet, 0, 0);
    AppendPiece(ExampleStart + Bullet, example, 0, 0);
    AppendPiece(ExampleStart + Bullet + example, DivEnd, 0, 0);
  }

  /** Each meaning block holds exactly one rule, the one that closes it. */
  lemma MeaningBlockPiece(m: Meaning)
    requires PlainMeaning(m)
    ensures Piece(MeaningBlock(m), 1)
  {
    var head := MeaningHead(m);
    var body := Concat(m.examples, ExampleLine);
    MeaningHeadPiece(m);
    assert Piece(body, 0) by {
      forall i | 0 <= i < |m.examples| ensures Piece(ExampleLine(m.examples[i]), 0) {
        ExampleLinePiece(m.examples[i]);
      }
      ConcatPiece(m.examples, ExampleLine, 0);
    }
    DivEndPiece(); RulePiece();
    AppendPiece(head, body, 0, 0);
    AppendPiece(head + body, DivEnd, 0, 0);
    AppendPiece(head + body + DivEnd, YellowRule, 0, 1);
  }

  lemma BannerPiece(word: string, caption: string)
    requires Plain(word) && Piece(caption, 0)
    ensures Piece(Banner(word, caption), 0)
  {
    BannerStartPiece(); DivEndPiece(); PlainPiece(word);
    AppendPiece(BannerStart, word, 0, 0);
    AppendPiece(BannerStart + word, caption, 0, 0);
    AppendPiece(BannerStart + word + caption, DivEnd, 0, 0);
  }

  lemma CollocationLinePiece(c: Collocation)
    requires PlainCollocation(c)
    ensures Piece(CollocationLine(c), 0)
  {
    var x := OrEmpty(c.collocation);
    var y := OrEmpty(c.example);
    PlainPiece(x); PlainPiece(y); PunctuationPieces(); ListPieces(); StrongPieces();
    var a := ItemStart + StrongStart;
    AppendPiece(ItemStart, StrongStart, 0, 0);
    AppendPiece(a, x, 0, 0);
    AppendPiece(a + x, StrongEnd, 0, 0);
    AppendPiece(a + x + StrongEnd, ColonSpace, 0, 0);
    AppendPiece(a + x + StrongEnd + ColonSpace, y, 0, 0);
    AppendPiece(a + x + StrongEnd + ColonSpace + y, ItemEnd, 0, 0);
  }

  /** The collocations section holds one rule, the one that closes it. */
  lemma CollocationsSectionPiece(word: string, cs: seq<Collocation>)
    requires Plain(word)
    requires forall i | 0 <= i < |cs| :: PlainCollocation(cs[i])
    ensures Piece(CollocationsSection(word, cs), 1)
  {
    var banner := Banner(word, CollocationsLabel);
    var lines := Concat(cs, CollocationLine);
    assert Piece(banner, 0) by {
      CaptionPieces(); BannerPiece(word, CollocationsLabel);
    }
    assert Piece(lines, 0) by {
      forall i | 0 <= i < |cs| ensures Piece(CollocationLine(cs[i]), 0) {
        CollocationLinePiece(cs[i]);
      }
      ConcatPiece(cs, CollocationLine, 0);
    }
    ListPieces(); RulePiece();
    AppendPiece(banner, ListStart, 0, 0);
    AppendPiece(banner + ListStart, lines, 0, 0);
    AppendPiece(banner + ListStart + lines, ListEnd, 0, 0);
    AppendPiece(banner + ListStart + lines + ListEnd, YellowRule, 0, 1);
  }

  lemma SynonymHeadPiece(s: Synonym)
    requires PlainSynonym(s)
    ensures Piece(SynonymHead(s), 0)
  {
    var x := OrEmpty(s.synonym);
    PlainPiece(x); PunctuationPieces(); ListPieces(); StrongPieces();
    var a := ItemStart + StrongStart;
    AppendPiece(ItemStart, StrongStart, 0, 0);
    AppendPiece(a, x, 0, 0);
    AppendPiece(a + x, StrongEnd, 0, 0);
    AppendPiece(a + x + StrongEnd, Colon, 0, 0);
    AppendPiece(a + x + StrongEnd + Colon, ItemEnd, 0, 0);
  }

  lemma SynonymExamplePiece(example: string)
    requires Plain(example)
    ensures Piece(SynonymExample(example), 0)
  {
    ListPieces(); PlainPiece(example);
    AppendPiece(ItemStart, example, 0, 0);
    AppendPiece(ItemStart + example, ItemEnd, 0, 0);
  }

  lemma SynonymBlockPiece(s: Synonym)
    requires PlainSynonym(s)
    ensures Piece(SynonymBlock(s), 0)
  {
    var head := SynonymHead(s);
    var examples := ExamplesOrNone(s.examples);
    var lines := Concat(examples, SynonymExample);
    SynonymHeadPiece(s);
    assert Piece(lines, 0) by {
      forall i | 0 <= i < |examples| ensures Piece(SynonymExample(examples[i]), 0) {
        SynonymExamplePiece(examples[i]);
      }
      ConcatPiece(examples, SynonymExample, 0);
    }
    ListPieces();
    AppendPiece(head, ListStart, 0, 0);
    AppendPiece(head + ListStart, lines, 0, 0);
    AppendPiece(head + ListStart + lines, ListEnd, 0, 0);
  }

  /** The synonyms section holds no rule at all. */
  lemma SynonymsSectionPiece(word: string, ss: seq<Synonym>)
    requires Plain(word)
    requires forall i | 0 <= i < |ss| :: PlainSynonym(ss[i])
    ensures Piece(SynonymsSection(word, ss), 0)
  {
    var banner := Banner(word, SynonymsLabel);
    var blocks := Concat(ss, SynonymBlock);
    assert Piece(banner, 0) by {
      CaptionPieces(); BannerPiece(word, SynonymsLabel);
    }
    assert Piece(blocks, 0) by {
      forall i | 0 <= i < |ss| ensures Piece(SynonymBlock(ss[i]), 0) {
        SynonymBlockPiece(ss[i]);
      }
      ConcatPiece(ss, SynonymBlock, 0);
    }
    ListPieces();
    AppendPiece(banner, ListStart, 0, 0);
    AppendPiece(banner + ListStart, blocks, 0, 0);
    AppendPiece(banner + ListStart + blocks, ListEnd, 0, 0);
  }

  /** One rule per meaning block. */
  lemma {:induction false} MeaningsPiece(ms: seq<Meaning>)
    requires forall i | 0 <= i < |ms| :: PlainMeaning(ms[i])
    ensures Piece(Concat(ms, MeaningBlock), |ms|)
    decreases |ms|
  {
    if ms == [] {
      PlainPiece("");
    } else {
      var init := ms[..|ms| - 1];
      assert forall i | 0 <= i < |init| :: init[i] == ms[i];
      MeaningsPiece(init);
      MeaningBlockPiece(ms[|ms| - 1]);
      AppendPiece(Concat(init, MeaningBlock), MeaningBlock(ms[|ms| - 1]), |init|, 1);
    }
  }

  /** One rule when the collocations section is emitted, none otherwise. */
  lemma CollocationsPartPiece(word: string, collocations: Option<seq<Collocation>>)
    requires Plain(word)
    requires collocations.Some? ==> forall i | 0 <= i < |collocations.value| :: PlainCollocation(collocations.value[i])
    ensures Piece(CollocationsPart(word, collocations), if NonEmpty(collocations) then 1 else 0)
  {
    if NonEmpty(collocations) {
      CollocationsSectionPiece(word, collocations.value);
    } else {
      PlainPiece("");
    }
  }

  /** The synonyms section, emitted or not, holds no rule. */
  lemma SynonymsPartPiece(word: string, synonyms: Option<seq<Synonym>>)
    requires Plain(word)
    requires synonyms.Some? ==> forall i | 0 <= i < |synonyms.value| :: PlainSynonym(synonyms.value[i])
    ensures Piece(SynonymsPart(word, synonyms), 0)
  {
    if NonEmpty(synonyms) {
      SynonymsSectionPiece(word, synonyms.value);
    } else {
      PlainPiece("");
    }
  }

  /** The card holds one yellow rule under the header, one after each
      meaning and one after the collocations when there are any; the
      synonyms section adds none. */
  lemma CardRuleCount(d: WordCard, collocations: Option<seq<Collocation>>, synonyms: Option<seq<Synonym>>)
    requires PlainInputs(d, collocations, synonyms)
    ensures HrCount(Card(d, collocations, synonyms)) == 1 + |d.meanings| + (if NonEmpty(collocations) then 1 else 0)
  {
    LeadPiece(d);
    TailPiece(d.word, collocations, synonyms);
    AppendPiece(Header(d.word, d.partOfSpeech, d.phonetic) + Concat(d.meanings, MeaningBlock),
      CollocationsPart(d.word, collocations) + SynonymsPart(d.word, synonyms),
      1 + |d.meanings|, if NonEmpty(collocations) then 1 else 0);
    CardParts(d, collocations, synonyms);
  }

  /** The header and the meaning blocks: one rule each. */
  lemma LeadPiece(d: WordCard)
    requires Plain(d.word) && Plain(d.partOfSpeech) && PlainOption(d.phonetic)
    requires forall i | 0 <= i < |d.meanings| :: PlainMeaning(d.meanings[i])
    ensures Piece(Header(d.word, d.partOfSpeech, d.phonetic) + Concat(d.meanings, MeaningBlock), 1 + |d.meanings|)
  {
    PlainPiece(d.word);
    HeaderPiece(d.word, d.partOfSpeech, d.phonetic, 0);
    MeaningsPiece(d.meanings);
    AppendPiece(Header(d.word, d.partOfSpeech, d.phonetic), Concat(d.meanings, MeaningBlock), 1, |d.meanings|);
  }

  /** The optional sections: one rule when there are collocations. */
  lemma TailPiece(word: string, collocations: Option<seq<Collocation>>, synonyms: Option<seq<Synonym>>)
    requires Plain(word)
    requires collocations.Some? ==> forall i | 0 <= i < |collocations.value| :: PlainCollocation(collocations.value[i])
    requires synonyms.Some? ==> forall i | 0 <= i < |synonyms.value| :: PlainSynonym(synonyms.value[i])
    ensures Piece(CollocationsPart(word, collocations) + SynonymsPart(word, synonyms), if NonEmpty(collocations) then 1 else 0)
  {
    CollocationsPartPiece(word, collocations);
    SynonymsPartPiece(word, synonyms);
    AppendPiece(CollocationsPart(word, collocations), SynonymsPart(word, synonyms), if NonEmpty(collocations) then 1 else 0, 0);
  }
}
