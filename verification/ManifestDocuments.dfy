/**
 Every nested record of texts and lists of texts can be written as a manifest block that
 means exactly that record.
*/
module ManifestDocuments {
  import opened ManifestText
  import opened ManifestScalars
  import opened ManifestBlocks
  import opened ManifestParser

  datatype Document = Words(text: string) | Phrases(texts: seq<string>) | Record(fields: seq<Field>)

  datatype Field = Field(key: string, value: Document)

  /** Keys are keys, and no record repeats one. */
  ghost predicate Writable(d: Document)
    decreases d, 0
  {
    d.Record? ==> FieldsWritable(d.fields)
  }

  ghost predicate FieldsWritable(fields: seq<Field>)
    decreases fields, 0
  {
    fields == [] ||
    var earlier, last := fields[..|fields| - 1], fields[|fields| - 1];
    && FieldsWritable(earlier) && IsKey(last.key) && Writable(last.value)
    && forall f | f in earlier :: f.key != last.key
  }

  function ValueOf(d: Document): Value
    decreases d, 0
  {
    match d
    case Words(text) => Text(text)
    case Phrases(texts) => List(Texts(texts))
    case Record(fields) => Dict(FieldValues(fields))
  }

  function Texts(texts: seq<string>): seq<Value> {
    if texts == [] then [] else Texts(texts[..|texts| - 1]) + [Text(texts[|texts| - 1])]
  }

  function FieldValues(fields: seq<Field>): map<string, Value>
    decreases fields, 0
  {
    if fields == [] then map[]
    else
      var last := fields[|fields| - 1];
      FieldValues(fields[..|fields| - 1])[last.key := ValueOf(last.value)]
  }

  // Writing

  function QuotedAll(texts: seq<string>): (r: seq<string>)
    ensures |r| == |texts|
  {
    if texts == [] then [] else QuotedAll(texts[..|texts| - 1]) + [Quoted(texts[|texts| - 1])]
  }

  function EntriesOf(fields: seq<Field>): (r: seq<Entry>)
    ensures |r| == |fields|
    decreases fields, 0
  {
    if fields == [] then []
    else
      var last := fields[|fields| - 1];
      EntriesOf(fields[..|fields| - 1]) + [EntryOf(last.key, last.value)]
  }

  function EntryOf(key: string, d: Document): (e: Entry)
    ensures e.key == key
    decreases d, 0
  {
    match d
    case Words(text) => Inline(key, Quoted(text))
    case Phrases(texts) => if texts == [] then Inline(key, "[]") else Section(key, "", Items(QuotedAll(texts)))
    case Record(fields) => if fields == [] then Bare(key, "") else Section(key, "", Mapping(EntriesOf(fields)))
  }

  // What is written means what was meant

  lemma {:induction false} QuotedAllMean(decode: Decoder, texts: seq<string>)
    ensures ScalarValues(decode, QuotedAll(texts)) == Texts(texts)
    ensures forall i | 0 <= i < |texts| :: Scalar(decode, QuotedAll(texts)[i]).Ok?
  {
    if texts != [] {
      hide Scalar, Quoted;
      var earlier, last := texts[..|texts| - 1], texts[|texts| - 1];
      QuotedAllMean(decode, earlier);
      QuotedReadsBack(decode, last);
      assert QuotedAll(texts)[..|texts| - 1] == QuotedAll(earlier);
    }
  }

  lemma {:induction false} EntriesMean(decode: Decoder, fields: seq<Field>)
    requires FieldsWritable(fields)
    ensures Fields(decode, EntriesOf(fields)) == FieldValues(fields)
    ensures EntriesWellFormed(decode, EntriesOf(fields), {})
    decreases fields, 0
  {
    if fields != [] {
      hide EntryOf, EntryMeaning, IsKey, Fields, EntriesWellFormed, EntryWellFormed;
      var earlier, last := fields[..|fields| - 1], fields[|fields| - 1];
      EntriesMean(decode, earlier);
      KeysAreFields(earlier);
      var seen := {} + KeysOf(EntriesOf(earlier));
      assert last.key !in seen;
      EntryMeans(decode, last.key, last.value, seen);
      FieldsStep(decode, EntriesOf(earlier), EntryOf(last.key, last.value));
      AppendedEntryWellFormed(decode, EntriesOf(earlier), EntryOf(last.key, last.value), {});
    }
  }

  ghost function KeysOf(entries: seq<Entry>): set<string> {
    set e | e in entries :: e.key
  }

  lemma {:induction false} KeysAreFields(fields: seq<Field>)
    ensures forall key | key in KeysOf(EntriesOf(fields)) :: exists f :: f in fields && f.key == key
  {
    if fields != [] {
      hide EntryOf;
      var earlier, last := fields[..|fields| - 1], fields[|fields| - 1];
      KeysAreFields(earlier);
      assert fields == earlier + [last];
      forall key | key in KeysOf(EntriesOf(fields)) ensures exists f :: f in fields && f.key == key {
        if key == last.key {
          assert last in fields;
        } else {
          assert key in KeysOf(EntriesOf(earlier));
          var f :| f in earlier && f.key == key;
          assert f in fields;
        }
      }
    }
  }

  lemma {:induction false} AppendedEntryWellFormed(decode: Decoder, entries: seq<Entry>, e: Entry, seen: set<string>)
    requires EntriesWellFormed(decode, entries, seen) && EntryWellFormed(decode, e, seen + KeysOf(entries))
    ensures EntriesWellFormed(decode, entries + [e], seen)
    decreases |entries|
  {
    hide EntryWellFormed;
    if entries == [] {
      assert seen + KeysOf([]) == seen;
      assert ([] + [e])[1..] == [];
    } else {
      assert entries == [entries[0]] + entries[1..];
      assert seen + KeysOf(entries) == (seen + {entries[0].key}) + KeysOf(entries[1..]);
      assert (entries + [e])[1..] == entries[1..] + [e];
      AppendedEntryWellFormed(decode, entries[1..], e, seen + {entries[0].key});
    }
  }

  lemma {:induction false} EntryMeans(decode: Decoder, key: string, d: Document, seen: set<string>)
    requires Writable(d) && IsKey(key) && key !in seen
    ensures EntryMeaning(decode, EntryOf(key, d)) == ValueOf(d)
    ensures EntryWellFormed(decode, EntryOf(key, d), seen)
    decreases d, 0
  {
    match d
    case Words(text) =>
      QuotedReadsBack(decode, text);
    case Phrases(texts) =>
      QuotedAllMean(decode, texts);
    case Record(fields) =>
      EntriesMean(decode, fields);
  }

  /** The lines a non-empty record is written in. */
  function Written(fields: seq<Field>, base: nat): seq<Line> {
    Render(Mapping(EntriesOf(fields)), base)
  }

  /**
   The text of a written record is accepted exactly when its lines pass the scan, that is, within
   the limits on lines and their length, without tabs and at an even indentation, and then it
   means the record.
  */
  lemma WrittenRecordReadsBack(decode: Decoder, fields: seq<Field>, base: nat)
    requires Writable(Record(fields)) && fields != []
    ensures var parsed := ParseManifest(decode, AsTexts(Written(fields, base)));
            && (parsed.Ok? <==> Fits(Written(fields, base)))
            && (parsed.Ok? ==> Meaning(decode, parsed.value) == ValueOf(Record(fields)))
  {
    hide ParseManifest, EntriesOf;
    EntriesMean(decode, fields);
    RenderedTextParsesExactlyWhen(decode, Mapping(EntriesOf(fields)), base);
  }

  /** The same for the written text itself, if no line has a line break inside. */
  lemma WrittenTextReadsBack(decode: Decoder, fields: seq<Field>, base: nat)
    requires Writable(Record(fields)) && fields != []
    requires forall line | line in AsTexts(Written(fields, base)) :: OneLine(line)
    ensures var parsed := ParseManifest(decode, SplitLines(Ended(AsTexts(Written(fields, base)))));
            && (parsed.Ok? <==> Fits(Written(fields, base)))
            && (parsed.Ok? ==> Meaning(decode, parsed.value) == ValueOf(Record(fields)))
  {
    hide ParseManifest, EntriesOf, Written;
    EndedSplitsBack(AsTexts(Written(fields, base)));
    WrittenRecordReadsBack(decode, fields, base);
  }
}
