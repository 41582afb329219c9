/**
 The manifest parser itself: the scan of the lines of the source, the recursive block reader over
 the scanned lines, and what a manifest means once its scalars are decoded.
*/
module ManifestParser {
  import opened Results
  import opened ManifestText
  import opened ManifestScalars
  import opened ManifestBlocks

  const MAX_CONTENT := 1024
  const MAX_LINES := 400

  // Scanning

  /** Blank lines and comments do not count. */
  predicate Skipped(line: string) {
    Blank(line) || StripLeft(line)[0] == '#'
  }

  function Indent(line: string): (n: nat)
    ensures n <= |line| && (forall i | 0 <= i < n :: line[i] == ' ') && (n < |line| ==> line[n] != ' ')
  {
    if line != "" && line[0] == ' ' then 1 + Indent(line[1..]) else 0
  }

  function Scanned(line: string): Line {
    Line(Indent(line), line[Indent(line)..])
  }

  function LineRefusal(line: string, number: nat, count: nat): Option<Error> {
    if '\t' in line || Indent(line) % 2 == 1 then Some(InvalidIndentationLine(number))
    else if |Scanned(line).content| > MAX_CONTENT || count >= MAX_LINES then Some(ComplexityLimit)
    else None
  }

  function Scan(source: seq<string>, n: nat, count: nat): Result<seq<Line>, Error>
    requires n <= |source|
    decreases |source| - n
  {
    if n == |source| then Ok([])
    else if Skipped(source[n]) then Scan(source, n + 1, count)
    else
      var refusal := LineRefusal(source[n], n + 1, count);
      if refusal.Some? then Err(refusal.value)
      else
        var rest := Scan(source, n + 1, count + 1);
        if rest.Ok? then Ok([Scanned(source[n])] + rest.value) else rest
  }

  function ParseManifest(decode: Decoder, source: seq<string>): Result<Tree, Error> {
    var lines := Scan(source, 0, 0);
    if lines.Ok? then Parse(decode, lines.value) else Err(lines.error)
  }

  // The text of scanned lines

  function Spaces(n: nat): string {
    seq(n, _ => ' ')
  }

  function AsText(line: Line): string {
    Spaces(line.indent) + line.content
  }

  function AsTexts(lines: seq<Line>): (r: seq<string>)
    ensures |r| == |lines| && forall i | 0 <= i < |r| :: r[i] == AsText(lines[i])
  {
    if lines == [] then [] else [AsText(lines[0])] + AsTexts(lines[1..])
  }

  function Kept(source: seq<string>): seq<string> {
    if source == [] then []
    else if Skipped(source[0]) then Kept(source[1..]) else [source[0]] + Kept(source[1..])
  }

  /** A line the scanner produces. */
  ghost predicate Plain(line: Line) {
    && Scanned(AsText(line)) == line && !Skipped(AsText(line))
    && '\t' !in AsText(line) && line.indent % 2 == 0 && |line.content| <= MAX_CONTENT
  }

  lemma ScannedIsText(text: string)
    ensures AsText(Scanned(text)) == text
  {
  }

  /** The scanner accepts exactly the texts of plain lines, in order, each once. */
  lemma {:induction false} ScanIsExact(source: seq<string>, n: nat, count: nat, lines: seq<Line>)
    requires n <= |source|
    ensures Scan(source, n, count) == Ok(lines) <==>
              && AsTexts(lines) == Kept(source[n..]) && (forall i | 0 <= i < |lines| :: Plain(lines[i]))
              && (lines == [] || count + |lines| <= MAX_LINES)
    decreases |source| - n
  {
    hide Skipped, Indent;
    if n < |source| {
      var text := source[n];
      assert source[n..][0] == text && source[n..][1..] == source[n + 1..];
      if Skipped(text) {
        ScanIsExact(source, n + 1, count, lines);
      } else {
        assert Kept(source[n..]) == [text] + Kept(source[n + 1..]);
        ScannedIsText(text);
        if lines != [] {
          ScanIsExact(source, n + 1, count + 1, lines[1..]);
          FirstLineIsExact(source, n, count, lines);
        }
      }
    }
  }

  lemma FirstLineIsExact(source: seq<string>, n: nat, count: nat, lines: seq<Line>)
    requires n < |source| && lines != [] && !Skipped(source[n])
    requires Kept(source[n..]) == [source[n]] + Kept(source[n + 1..])
    requires Scan(source, n + 1, count + 1) == Ok(lines[1..]) <==>
               && AsTexts(lines[1..]) == Kept(source[n + 1..]) && (forall i | 0 <= i < |lines[1..]| :: Plain(lines[1..][i]))
               && (lines[1..] == [] || count + 1 + |lines[1..]| <= MAX_LINES)
    ensures Scan(source, n, count) == Ok(lines) <==>
              && AsTexts(lines) == Kept(source[n..]) && (forall i | 0 <= i < |lines| :: Plain(lines[i]))
              && (lines == [] || count + |lines| <= MAX_LINES)
  {
    hide Skipped, Indent, Scan, Kept;
    var text := source[n];
    ScannedIsText(text);
    var first := Scanned(text) == lines[0] && LineRefusal(text, n + 1, count).None?;
    assert Scan(source, n, count) == Ok(lines) <==> first && Scan(source, n + 1, count + 1) == Ok(lines[1..]) by {
      FirstOfScan(source, n, count, lines);
    }
    assert AsTexts(lines) == [AsText(lines[0])] + AsTexts(lines[1..]);
    assert AsTexts(lines) == Kept(source[n..])
        <==> AsText(lines[0]) == text && AsTexts(lines[1..]) == Kept(source[n + 1..]) by {
      assert AsTexts(lines)[0] == AsText(lines[0]) && AsTexts(lines)[1..] == AsTexts(lines[1..]);
      assert Kept(source[n..])[0] == text && Kept(source[n..])[1..] == Kept(source[n + 1..]);
    }
    assert (forall i | 0 <= i < |lines| :: Plain(lines[i]))
        <==> Plain(lines[0]) && forall i | 0 <= i < |lines[1..]| :: Plain(lines[1..][i]) by {
      assert forall i | 0 < i < |lines| :: lines[i] == lines[1..][i - 1];
      assert forall i | 0 <= i < |lines[1..]| :: lines[1..][i] == lines[i + 1];
    }
  }

  lemma FirstOfScan(source: seq<string>, n: nat, count: nat, lines: seq<Line>)
    requires n < |source| && lines != [] && !Skipped(source[n])
    ensures Scan(source, n, count) == Ok(lines) <==>
              && Scanned(source[n]) == lines[0] && LineRefusal(source[n], n + 1, count).None?
              && Scan(source, n + 1, count + 1) == Ok(lines[1..])
  {
    hide Skipped, Scanned, LineRefusal;
    var rest := Scan(source, n + 1, count + 1);
    if rest.Ok? {
      assert ([Scanned(source[n])] + rest.value)[1..] == rest.value;
      assert [lines[0]] + lines[1..] == lines;
    }
  }

  /**
   A source is accepted as a tree exactly when its lines, blanks and comments apart, are the
   text of a rendering of that well-formed mapping within the limits.
  */
  lemma AcceptedExactlyWhenRendered(decode: Decoder, source: seq<string>, t: Tree)
    ensures ParseManifest(decode, source) == Ok(t) <==>
              t.Mapping? && WellFormed(decode, t) &&
              exists base: nat :: IsSourceOf(source, t, base)
  {
    hide Parse, WellFormed, Scan;
    if ParseManifest(decode, source) == Ok(t) {
      var lines := Scan(source, 0, 0).value;
      assert source[0..] == source;
      ScanIsExact(source, 0, 0, lines);
      ParsingInvertsRendering(decode, lines, t);
      assert IsSourceOf(source, t, lines[0].indent);
    }
    if t.Mapping? && WellFormed(decode, t) && exists base: nat :: IsSourceOf(source, t, base) {
      var base: nat :| IsSourceOf(source, t, base);
      var lines := Render(t, base);
      assert source[0..] == source;
      ScanIsExact(source, 0, 0, lines);
      RenderedStartsAtBase(decode, t, base);
      ParsingInvertsRendering(decode, lines, t);
    }
  }

  /** The source, blanks and comments apart, is the text of the tree's rendering. */
  ghost predicate IsSourceOf(source: seq<string>, t: Tree, base: nat) {
    var lines := Render(t, base);
    && Kept(source) == AsTexts(lines) && |lines| <= MAX_LINES
    && forall i | 0 <= i < |lines| :: Plain(lines[i])
  }

  lemma RenderedStartsAtBase(decode: Decoder, t: Tree, base: nat)
    requires WellFormed(decode, t)
    ensures Render(t, base) != [] && Render(t, base)[0].indent == base
  {
    hide Scalar, EntryWellFormed;
  }

  // The text of a rendering

  /** The line's content shows: it is not blank, no comment, and starts where the spaces end. */
  ghost predicate Visible(line: Line) {
    line.content != "" && !IsSpace(line.content[0]) && line.content[0] != '#'
  }

  lemma {:induction false} VisibleText(n: nat, content: string)
    requires Visible(Line(n, content))
    ensures Indent(Spaces(n) + content) == n && StripLeft(Spaces(n) + content) == content
    decreases n
  {
    if n == 0 {
      assert Spaces(n) + content == content;
    } else {
      assert (Spaces(n) + content)[1..] == Spaces(n - 1) + content;
      VisibleText(n - 1, content);
    }
  }

  lemma VisibleIsScanned(line: Line)
    requires Visible(line)
    ensures !Skipped(AsText(line)) && Scanned(AsText(line)) == line
  {
    hide IsSpace, Indent, StripLeft;
    VisibleText(line.indent, line.content);
    assert AsText(line)[line.indent..] == line.content;
  }

  lemma {:induction false} RenderedIsVisible(decode: Decoder, t: Tree, indent: nat)
    requires WellFormed(decode, t)
    ensures forall i | 0 <= i < |Render(t, indent)| :: Visible(Render(t, indent)[i])
    decreases t, 0
  {
    match t
    case Items(raws) => ItemsAreVisible(raws, indent);
    case Mapping(entries) => EntriesAreVisible(decode, entries, indent, {});
  }

  lemma {:induction false} ItemsAreVisible(raws: seq<string>, indent: nat)
    ensures forall i | 0 <= i < |RenderItems(raws, indent)| :: Visible(RenderItems(raws, indent)[i])
  {
    if raws != [] {
      ItemsAreVisible(raws[1..], indent);
    }
  }

  lemma {:induction false} EntriesAreVisible(decode: Decoder, entries: seq<Entry>, indent: nat, seen: set<string>)
    requires EntriesWellFormed(decode, entries, seen)
    ensures forall i | 0 <= i < |RenderEntries(entries, indent)| :: Visible(RenderEntries(entries, indent)[i])
    decreases entries, 0
  {
    hide EntryWellFormed, Visible, RenderEntry;
    if entries != [] {
      EntryIsVisible(decode, entries[0], indent, seen);
      EntriesAreVisible(decode, entries[1..], indent, seen + {entries[0].key});
    }
  }

  lemma {:induction false} EntryIsVisible(decode: Decoder, e: Entry, indent: nat, seen: set<string>)
    requires EntryWellFormed(decode, e, seen)
    ensures forall i | 0 <= i < |RenderEntry(e, indent)| :: Visible(RenderEntry(e, indent)[i])
    decreases e, 0
  {
    assert Visible(RenderEntry(e, indent)[0]) by {
      assert RenderEntry(e, indent)[0].content[0] == e.key[0];
    }
    if e.Section? {
      hide WellFormed, Visible;
      RenderedIsVisible(decode, e.body, indent + 2);
    }
  }

  lemma {:induction false} VisibleIsKept(lines: seq<Line>)
    requires forall i | 0 <= i < |lines| :: Visible(lines[i])
    ensures Kept(AsTexts(lines)) == AsTexts(lines)
  {
    hide Visible, Skipped;
    if lines != [] {
      VisibleIsScanned(lines[0]);
      VisibleIsKept(lines[1..]);
      assert AsTexts(lines)[1..] == AsTexts(lines[1..]);
    }
  }

  /** The lines pass the scan: within the limits, without tabs, evenly indented. */
  ghost predicate Fits(lines: seq<Line>) {
    |lines| <= MAX_LINES && forall i | 0 <= i < |lines| :: Plain(lines[i])
  }

  /** The text of a well-formed mapping is accepted exactly when its lines pass the scan, and then as that mapping. */
  lemma RenderedTextParsesExactlyWhen(decode: Decoder, t: Tree, base: nat)
    requires WellFormed(decode, t) && t.Mapping?
    ensures var source := AsTexts(Render(t, base));
            && (ParseManifest(decode, source).Ok? <==> Fits(Render(t, base)))
            && (Fits(Render(t, base)) ==> ParseManifest(decode, source) == Ok(t))
  {
    hide WellFormed, Parse, Scan, Visible, Plain;
    var lines := Render(t, base);
    var source := AsTexts(lines);
    RenderedIsVisible(decode, t, base);
    VisibleIsKept(lines);
    if Fits(lines) {
      assert IsSourceOf(source, t, base);
      AcceptedExactlyWhenRendered(decode, source, t);
    }
    if ParseManifest(decode, source).Ok? {
      var scanned := Scan(source, 0, 0).value;
      assert source[0..] == source;
      ScanIsExact(source, 0, 0, scanned);
      SameTextSameLines(scanned, lines);
    }
  }

  lemma SameTextSameLines(scanned: seq<Line>, lines: seq<Line>)
    requires AsTexts(scanned) == AsTexts(lines)
    requires (forall i | 0 <= i < |scanned| :: Plain(scanned[i])) && forall i | 0 <= i < |lines| :: Visible(lines[i])
    ensures scanned == lines
  {
    hide Visible, AsTexts;
    assert |scanned| == |lines|;
    forall i | 0 <= i < |lines| ensures scanned[i] == lines[i] {
      VisibleIsScanned(lines[i]);
      assert AsTexts(scanned)[i] == AsTexts(lines)[i];
    }
  }

  // What a tree means

  function ScalarValue(decode: Decoder, raw: string): Value {
    var scalar := Scalar(decode, raw);
    if scalar.Ok? then scalar.value else Text("")
  }

  function ScalarValues(decode: Decoder, raws: seq<string>): seq<Value> {
    if raws == [] then []
    else ScalarValues(decode, raws[..|raws| - 1]) + [ScalarValue(decode, raws[|raws| - 1])]
  }

  function Meaning(decode: Decoder, t: Tree): Value
    decreases t, 0
  {
    match t
    case Items(raws) => List(ScalarValues(decode, raws))
    case Mapping(entries) => Dict(Fields(decode, entries))
  }

  function Fields(decode: Decoder, entries: seq<Entry>): (r: map<string, Value>)
    ensures r.Keys == (set e | e in entries :: e.key)
    decreases entries, 0
  {
    if entries == [] then map[]
    else
      var earlier, last := entries[..|entries| - 1], entries[|entries| - 1];
      assert entries == earlier + [last];
      Fields(decode, earlier)[last.key := EntryMeaning(decode, last)]
  }

  function EntryMeaning(decode: Decoder, e: Entry): Value
    decreases e, 0
  {
    match e
    case Inline(_, raw) => ScalarValue(decode, raw)
    case Section(_, _, body) => Meaning(decode, body)
    case Bare(_, _) => Dict(map[])
  }

  // The parser

  lemma Appending<T>(done: seq<T>, rest: seq<T>)
    ensures [] + rest == rest && done + [] == done
    ensures rest != [] ==> done + rest == (done + [rest[0]]) + rest[1..]
  {
  }

  method ScanLines(source: seq<string>) returns (r: Result<seq<Line>, Error>)
    ensures r == Scan(source, 0, 0)
  {
    hide Skipped, Indent;
    var lines := [];
    if Scan(source, 0, 0).Ok? {
      Appending(lines, Scan(source, 0, 0).value);
    }
    for n := 0 to |source|
      invariant var rest := Scan(source, n, |lines|);
                Scan(source, 0, 0) == if rest.Ok? then Ok(lines + rest.value) else rest
    {
      ghost var rest := Scan(source, n, |lines|);
      if rest.Ok? {
        Appending(lines, rest.value);
      }
      if !Skipped(source[n]) {
        var indent := Indent(source[n]);
        var content := source[n][indent..];
        if '\t' in source[n] || indent % 2 == 1 {
          return Err(InvalidIndentationLine(n + 1));
        }
        if |content| > MAX_CONTENT || |lines| >= MAX_LINES {
          return Err(ComplexityLimit);
        }
        lines := lines + [Line(indent, content)];
      }
    }
    Appending(lines, []);
    r := Ok(lines);
  }

  /** What reading a block comes to, in terms of the tree it stands for. */
  function BlockValue(decode: Decoder, r: Result<(Tree, nat), Error>): Result<(Value, nat), Error> {
    if r.Ok? then Ok((Meaning(decode, r.value.0), r.value.1)) else Err(r.error)
  }

  /** What was read so far, followed by what the rest comes to. */
  function Joined<T>(done: seq<T>, rest: Result<(seq<T>, nat), Error>): (r: Result<(seq<T>, nat), Error>)
    ensures done == [] ==> r == rest
    ensures rest.Ok? && rest.value.0 == [] ==> r == Ok((done, rest.value.1))
  {
    if rest.Err? then rest else (Appending(done, rest.value.0); Ok((done + rest.value.0, rest.value.1)))
  }

  lemma ItemsStep(decode: Decoder, lines: seq<Line>, i: nat, indent: nat, done: seq<string>)
    requires i <= |lines|
    ensures var all := Joined(done, ItemsFrom(decode, lines, i, indent));
            if !Level(lines, i, indent) || !IsItem(lines[i].content) then all == Ok((done, i))
            else
              var raw := lines[i].content[2..];
              var scalar := Scalar(decode, raw);
              && all == (if scalar.Err? then Err(scalar.error)
                         else if Deeper(lines, i + 1, indent) then Err(NestedSequence)
                         else Joined(done + [raw], ItemsFrom(decode, lines, i + 1, indent)))
              && ScalarValues(decode, done + [raw]) == ScalarValues(decode, done) + [ScalarValue(decode, raw)]
  {
    hide Scalar;
    if Level(lines, i, indent) && IsItem(lines[i].content) {
      var raw, rest := lines[i].content[2..], ItemsFrom(decode, lines, i + 1, indent);
      assert (done + [raw])[..|done|] == done;
      if rest.Ok? {
        assert done + ([raw] + rest.value.0) == (done + [raw]) + rest.value.0;
      }
    }
  }

  lemma FieldsStep(decode: Decoder, done: seq<Entry>, e: Entry)
    ensures Fields(decode, done + [e]) == Fields(decode, done)[e.key := EntryMeaning(decode, e)]
    ensures Fields(decode, done + [e]).Keys == Fields(decode, done).Keys + {e.key}
  {
    hide EntryMeaning;
    assert (done + [e])[..|done|] == done;
  }

  lemma EntriesStep(decode: Decoder, lines: seq<Line>, i: nat, indent: nat, done: seq<Entry>)
    requires i <= |lines|
    ensures var seen := Fields(decode, done).Keys;
            var all := Joined(done, EntriesFrom(decode, lines, i, indent, seen));
            if !Level(lines, i, indent) then all == Ok((done, i))
            else
              var entry := EntryAt(decode, lines, i, indent, seen);
              if entry.Err? then all == Err(entry.error)
              else
                var (e, j) := entry.value;
                && all == (if Deeper(lines, j, indent) then Err(InvalidIndentation)
                           else Joined(done + [e], EntriesFrom(decode, lines, j, indent, Fields(decode, done + [e]).Keys)))
                && Fields(decode, done + [e]) == Fields(decode, done)[e.key := EntryMeaning(decode, e)]
  {
    hide EntryAt, Fields, EntryMeaning;
    var seen := Fields(decode, done).Keys;
    if Level(lines, i, indent) && EntryAt(decode, lines, i, indent, seen).Ok? {
      var (e, j) := EntryAt(decode, lines, i, indent, seen).value;
      FieldsStep(decode, done, e);
      var rest := EntriesFrom(decode, lines, j, indent, seen + {e.key});
      if rest.Ok? {
        assert done + ([e] + rest.value.0) == (done + [e]) + rest.value.0;
      }
    }
  }

  method ReadItems(decode: Decoder, lines: seq<Line>, start: nat, indent: nat) returns (r: Result<(Value, nat), Error>)
    requires Level(lines, start, indent) && IsItem(lines[start].content)
    ensures r == BlockValue(decode, Block(decode, lines, start, indent))
  {
    hide Scalar, ItemsFrom, Joined;
    var values, index := [], start;
    ghost var raws := [];
    while Level(lines, index, indent)
      invariant start <= index <= |lines| && values == ScalarValues(decode, raws)
      invariant ItemsFrom(decode, lines, start, indent) == Joined(raws, ItemsFrom(decode, lines, index, indent))
      decreases |lines| - index
    {
      var content := lines[index].content;
      ItemsStep(decode, lines, index, indent, raws);
      if !IsItem(content) {
        break;
      }
      var scalar := Scalar(decode, content[2..]);
      if scalar.Err? {
        return Err(scalar.error);
      }
      values := values + [scalar.value];
      raws := raws + [content[2..]];
      index := index + 1;
      if index < |lines| && lines[index].indent > indent {
        return Err(NestedSequence);
      }
    }
    ItemsStep(decode, lines, index, indent, raws);
    r := Ok((List(values), index));
  }

  method ReadBlock(decode: Decoder, lines: seq<Line>, start: nat, indent: nat) returns (r: Result<(Value, nat), Error>)
    requires Level(lines, start, indent)
    ensures r == BlockValue(decode, Block(decode, lines, start, indent))
    decreases |lines| - start, 1
  {
    hide EntryAt, EntriesFrom, Joined, EntryMeaning;
    if IsItem(lines[start].content) {
      r := ReadItems(decode, lines, start, indent);
      return;
    }
    var result: map<string, Value>, index := map[], start;
    ghost var entries := [];
    assert result.Keys == {};
    while Level(lines, index, indent)
      invariant start <= index <= |lines| && result == Fields(decode, entries)
      invariant EntriesFrom(decode, lines, start, indent, {})
             == Joined(entries, EntriesFrom(decode, lines, index, indent, result.Keys))
      decreases |lines| - index
    {
      EntriesStep(decode, lines, index, indent, entries);
      ghost var entry := EntryAt(decode, lines, index, indent, result.Keys);
      var read := ReadEntry(decode, lines, index, indent, result);
      if read.Err? {
        return Err(read.error);
      }
      var (key, value, next) := read.value;
      result := result[key := value];
      entries := entries + [entry.value.0];
      index := next;
      if index < |lines| && lines[index].indent < indent {
        break;
      }
      if index < |lines| && lines[index].indent > indent {
        return Err(InvalidIndentation);
      }
    }
    EntriesStep(decode, lines, index, indent, entries);
    r := Ok((Dict(result), index));
  }

  /** The key and value of one entry, and where the next one is. */
  method ReadEntry(decode: Decoder, lines: seq<Line>, start: nat, indent: nat, result: map<string, Value>)
    returns (r: Result<(string, Value, nat), Error>)
    requires Level(lines, start, indent)
    ensures var entry := EntryAt(decode, lines, start, indent, result.Keys);
            r == if entry.Ok? then Ok((entry.value.0.key, EntryMeaning(decode, entry.value.0), entry.value.1))
                 else Err(entry.error)
    decreases |lines| - start, 0
  {
    hide Scalar, IsKey, Colon, Blank;
    var content := lines[start].content;
    if "-" <= content {
      return Err(InvalidSequence);
    }
    if ':' !in content {
      return Err(InvalidEntry);
    }
    var key, value := Key(content), After(content);
    if !IsKey(key) || key in result {
      return Err(InvalidKey);
    }
    var index := start + 1;
    if !Blank(value) {
      var scalar := Scalar(decode, value);
      r := if scalar.Ok? then Ok((key, scalar.value, index)) else Err(scalar.error);
    } else if index < |lines| && lines[index].indent > indent {
      if lines[index].indent != indent + 2 {
        return Err(InvalidIndentation);
      }
      var body := ReadBlock(decode, lines, index, indent + 2);
      r := if body.Ok? then Ok((key, body.value.0, body.value.1)) else Err(body.error);
    } else {
      r := Ok((key, Dict(map[]), index));
    }
  }

  /** Reads a manifest: the value of the tree its source renders, or the first error. */
  method ReadManifest(decode: Decoder, text: string) returns (r: Result<Value, Error>)
    ensures var parsed := ParseManifest(decode, SplitLines(text));
            r == if parsed.Ok? then Ok(Meaning(decode, parsed.value)) else Err(parsed.error)
  {
    hide Scan, Block, SplitLines;
    var scanned := ScanLines(SplitLines(text));
    if scanned.Err? {
      return Err(scanned.error);
    }
    var lines := scanned.value;
    if lines == [] {
      return Err(EmptyManifest);
    }
    var block := ReadBlock(decode, lines, 0, lines[0].indent);
    if block.Err? {
      return Err(block.error);
    }
    if block.value.1 != |lines| || !block.value.0.Dict? {
      return Err(InvalidStructure);
    }
    r := Ok(block.value.0);
  }
}
