/**
 Indented blocks: the grammar of the manifest over scanned lines, the renderer that inverts
 it, and the proof that each undoes the other.
*/
module ManifestBlocks {
  import opened Results
  import opened ManifestScalars

  datatype Line = Line(indent: nat, content: string)

  /** A parsed block, with the raw text of every scalar and of every blank after a colon. */
  datatype Tree = Items(raws: seq<string>) | Mapping(entries: seq<Entry>)

  datatype Entry =
    | Inline(key: string, raw: string)
    | Section(key: string, pad: string, body: Tree)
    | Bare(key: string, pad: string)

  predicate IsKey(s: string) {
    && s != "" && 'a' <= s[0] <= 'z'
    && forall i | 0 <= i < |s| :: 'a' <= s[i] <= 'z' || '0' <= s[i] <= '9' || s[i] == '_'
  }

  // Rendering

  function Render(t: Tree, indent: nat): seq<Line>
    decreases t, 0
  {
    match t
    case Items(raws) => RenderItems(raws, indent)
    case Mapping(entries) => RenderEntries(entries, indent)
  }

  function RenderItems(raws: seq<string>, indent: nat): (r: seq<Line>)
    ensures |r| == |raws|
  {
    if raws == [] then [] else [Line(indent, "- " + raws[0])] + RenderItems(raws[1..], indent)
  }

  function RenderEntries(entries: seq<Entry>, indent: nat): seq<Line>
    decreases entries, 0
  {
    if entries == [] then [] else RenderEntry(entries[0], indent) + RenderEntries(entries[1..], indent)
  }

  function RenderEntry(e: Entry, indent: nat): (r: seq<Line>)
    ensures r != [] && r[0].indent == indent
    decreases e, 0
  {
    match e
    case Inline(key, raw) => [Line(indent, key + ":" + raw)]
    case Section(key, pad, body) => [Line(indent, key + ":" + pad)] + Render(body, indent + 2)
    case Bare(key, pad) => [Line(indent, key + ":" + pad)]
  }

  // Trees that have a rendering

  ghost predicate WellFormed(decode: Decoder, t: Tree)
    decreases t, 0
  {
    match t
    case Items(raws) => raws != [] && forall i | 0 <= i < |raws| :: Scalar(decode, raws[i]).Ok?
    case Mapping(entries) => entries != [] && EntriesWellFormed(decode, entries, {})
  }

  /** Keys are new, values readable, sections well formed. */
  ghost predicate EntriesWellFormed(decode: Decoder, entries: seq<Entry>, seen: set<string>)
    decreases entries, 0
  {
    entries == [] ||
    (EntryWellFormed(decode, entries[0], seen) && EntriesWellFormed(decode, entries[1..], seen + {entries[0].key}))
  }

  ghost predicate EntryWellFormed(decode: Decoder, e: Entry, seen: set<string>)
    decreases e, 0
  {
    && IsKey(e.key) && e.key !in seen
    && match e
       case Inline(_, raw) => !Blank(raw) && Scalar(decode, raw).Ok?
       case Section(_, pad, body) => Blank(pad) && WellFormed(decode, body)
       case Bare(_, pad) => Blank(pad)
  }

  // Parsing

  predicate Deeper(lines: seq<Line>, i: nat, indent: nat) {
    i < |lines| && lines[i].indent > indent
  }

  predicate Level(lines: seq<Line>, i: nat, indent: nat) {
    i < |lines| && lines[i].indent == indent
  }

  predicate IsItem(content: string) {
    "- " <= content
  }

  /** Where the first colon is. */
  function Colon(content: string): (k: nat)
    requires ':' in content
    ensures k < |content| && content[k] == ':' && forall n | 0 <= n < k :: content[n] != ':'
  {
    if content[0] == ':' then 0 else 1 + Colon(content[1..])
  }

  function Key(content: string): string
    requires ':' in content
  {
    content[..Colon(content)]
  }

  function After(content: string): string
    requires ':' in content
  {
    content[Colon(content) + 1..]
  }

  function KeyRefusal(content: string, seen: set<string>): Option<Error> {
    if content != "" && content[0] == '-' then Some(InvalidSequence)
    else if ':' !in content then Some(InvalidEntry)
    else if !IsKey(Key(content)) || Key(content) in seen then Some(InvalidKey)
    else None
  }

  function Block(decode: Decoder, lines: seq<Line>, i: nat, indent: nat): (r: Result<(Tree, nat), Error>)
    requires Level(lines, i, indent)
    ensures r.Ok? ==> i < r.value.1 <= |lines|
    decreases |lines| - i, 3
  {
    if IsItem(lines[i].content) then
      var r := ItemsFrom(decode, lines, i, indent);
      if r.Ok? then Ok((Items(r.value.0), r.value.1)) else Err(r.error)
    else
      var r := EntriesFrom(decode, lines, i, indent, {});
      if r.Ok? then Ok((Mapping(r.value.0), r.value.1)) else Err(r.error)
  }

  function ItemsFrom(decode: Decoder, lines: seq<Line>, i: nat, indent: nat): (r: Result<(seq<string>, nat), Error>)
    requires i <= |lines|
    ensures r.Ok? ==> i <= r.value.1 <= |lines|
    ensures r.Ok? && Level(lines, i, indent) && IsItem(lines[i].content) ==> i < r.value.1
    decreases |lines| - i, 0
  {
    if !Level(lines, i, indent) || !IsItem(lines[i].content) then Ok(([], i))
    else
      var raw := lines[i].content[2..];
      var scalar := Scalar(decode, raw);
      if scalar.Err? then Err(scalar.error)
      else if Deeper(lines, i + 1, indent) then Err(NestedSequence)
      else
        var rest := ItemsFrom(decode, lines, i + 1, indent);
        if rest.Ok? then Ok(([raw] + rest.value.0, rest.value.1)) else rest
  }

  function EntriesFrom(decode: Decoder, lines: seq<Line>, i: nat, indent: nat, seen: set<string>)
    : (r: Result<(seq<Entry>, nat), Error>)
    requires i <= |lines|
    ensures r.Ok? ==> i <= r.value.1 <= |lines|
    ensures r.Ok? && Level(lines, i, indent) ==> i < r.value.1
    decreases |lines| - i, 2
  {
    if !Level(lines, i, indent) then Ok(([], i))
    else
      var entry := EntryAt(decode, lines, i, indent, seen);
      if entry.Err? then Err(entry.error)
      else
        var (e, j) := entry.value;
        if Deeper(lines, j, indent) then Err(InvalidIndentation)
        else
          var rest := EntriesFrom(decode, lines, j, indent, seen + {e.key});
          if rest.Ok? then Ok(([e] + rest.value.0, rest.value.1)) else rest
  }

  /** One key with its value, its nested block, or nothing. */
  function EntryAt(decode: Decoder, lines: seq<Line>, i: nat, indent: nat, seen: set<string>)
    : (r: Result<(Entry, nat), Error>)
    requires Level(lines, i, indent)
    ensures r.Ok? ==> i < r.value.1 <= |lines|
    decreases |lines| - i, 1
  {
    var content := lines[i].content;
    var refusal := KeyRefusal(content, seen);
    if refusal.Some? then Err(refusal.value)
    else
      var (key, value) := (Key(content), After(content));
      if !Blank(value) then
        var scalar := Scalar(decode, value);
        if scalar.Ok? then Ok((Inline(key, value), i + 1)) else Err(scalar.error)
      else if Deeper(lines, i + 1, indent) then
        if lines[i + 1].indent != indent + 2 then Err(InvalidIndentation)
        else
          var body := Block(decode, lines, i + 1, indent + 2);
          if body.Ok? then Ok((Section(key, value, body.value.0), body.value.1)) else Err(body.error)
      else Ok((Bare(key, value), i + 1))
  }

  /** A whole manifest: one mapping over all lines, at the indentation of the first. */
  function Parse(decode: Decoder, lines: seq<Line>): Result<Tree, Error> {
    if lines == [] then Err(EmptyManifest)
    else
      var r := Block(decode, lines, 0, lines[0].indent);
      if r.Err? then Err(r.error)
      else if r.value.1 != |lines| || !r.value.0.Mapping? then Err(InvalidStructure)
      else Ok(r.value.0)
  }

  // What is parsed is what the rendering says

  lemma {:induction false} BlockIsRendered(decode: Decoder, lines: seq<Line>, i: nat, indent: nat)
    requires Level(lines, i, indent)
    ensures var r := Block(decode, lines, i, indent);
            r.Ok? ==> WellFormed(decode, r.value.0) && lines[i..r.value.1] == Render(r.value.0, indent)
    decreases |lines| - i, 3
  {
    if IsItem(lines[i].content) {
      ItemsAreRendered(decode, lines, i, indent);
    } else {
      EntriesAreRendered(decode, lines, i, indent, {});
    }
  }

  lemma {:induction false} ItemsAreRendered(decode: Decoder, lines: seq<Line>, i: nat, indent: nat)
    requires i <= |lines|
    ensures var r := ItemsFrom(decode, lines, i, indent);
            && (r.Ok? ==> lines[i..r.value.1] == RenderItems(r.value.0, indent))
            && (r.Ok? ==> forall k | 0 <= k < |r.value.0| :: Scalar(decode, r.value.0[k]).Ok?)
    decreases |lines| - i, 0
  {
    hide Scalar;
    var r := ItemsFrom(decode, lines, i, indent);
    if r.Ok? && Level(lines, i, indent) && IsItem(lines[i].content) {
      var raw, rest := lines[i].content[2..], ItemsFrom(decode, lines, i + 1, indent);
      ItemsAreRendered(decode, lines, i + 1, indent);
      assert lines[i] == Line(indent, "- " + raw);
      assert r.value.0 == [raw] + rest.value.0 && r.value.0[1..] == rest.value.0;
      assert lines[i..r.value.1] == [lines[i]] + lines[i + 1..r.value.1];
    }
  }

  lemma {:induction false} EntriesAreRendered(decode: Decoder, lines: seq<Line>, i: nat, indent: nat, seen: set<string>)
    requires i <= |lines|
    ensures var r := EntriesFrom(decode, lines, i, indent, seen);
            r.Ok? ==> EntriesWellFormed(decode, r.value.0, seen) && lines[i..r.value.1] == RenderEntries(r.value.0, indent)
    decreases |lines| - i, 2
  {
    hide Scalar, EntryAt, EntryWellFormed, RenderEntry;
    var r := EntriesFrom(decode, lines, i, indent, seen);
    if r.Ok? && Level(lines, i, indent) {
      var (e, j) := EntryAt(decode, lines, i, indent, seen).value;
      EntryIsRendered(decode, lines, i, indent, seen);
      EntriesAreRendered(decode, lines, j, indent, seen + {e.key});
      assert r.value.0[1..] == EntriesFrom(decode, lines, j, indent, seen + {e.key}).value.0;
      assert lines[i..r.value.1] == lines[i..j] + lines[j..r.value.1];
    }
  }

  lemma {:induction false} EntryIsRendered(decode: Decoder, lines: seq<Line>, i: nat, indent: nat, seen: set<string>)
    requires Level(lines, i, indent)
    ensures var r := EntryAt(decode, lines, i, indent, seen);
            r.Ok? ==> EntryWellFormed(decode, r.value.0, seen) && lines[i..r.value.1] == RenderEntry(r.value.0, indent)
    decreases |lines| - i, 1
  {
    hide Scalar, IsKey, Colon;
    var r := EntryAt(decode, lines, i, indent, seen);
    if r.Ok? {
      var content := lines[i].content;
      assert content == Key(content) + ":" + After(content);
      if r.value.0.Section? {
        BlockIsRendered(decode, lines, i + 1, indent + 2);
        assert lines[i..r.value.1] == [lines[i]] + lines[i + 1..r.value.1];
      }
    }
  }

  // What is rendered is parsed back

  /** The rendering stands at place i, and the line after it, if any, is shallower. */
  ghost predicate Placed(lines: seq<Line>, i: nat, rendering: seq<Line>, indent: nat) {
    && i + |rendering| <= |lines| && lines[i..i + |rendering|] == rendering
    && (i + |rendering| == |lines| || lines[i + |rendering|].indent < indent)
  }

  lemma {:induction false} RenderedBlockParses(decode: Decoder, lines: seq<Line>, i: nat, t: Tree, indent: nat)
    requires WellFormed(decode, t) && Placed(lines, i, Render(t, indent), indent)
    ensures Level(lines, i, indent)
    ensures Block(decode, lines, i, indent) == Ok((t, i + |Render(t, indent)|))
    decreases t, 0
  {
    hide Scalar, IsKey, Blank, Colon, EntryAt, RenderEntry, EntryWellFormed;
    var rendering := Render(t, indent);
    match t
    case Items(raws) =>
      assert lines[i] == rendering[0];
      RenderedItemsParse(decode, lines, i, raws, indent);
    case Mapping(entries) =>
      assert lines[i] == rendering[0];
      FirstHead(decode, entries, indent, {});
      RenderedEntriesParse(decode, lines, i, entries, indent, {});
  }

  lemma {:induction false} RenderedItemsParse(decode: Decoder, lines: seq<Line>, i: nat, raws: seq<string>, indent: nat)
    requires forall k | 0 <= k < |raws| :: Scalar(decode, raws[k]).Ok?
    requires Placed(lines, i, RenderItems(raws, indent), indent)
    ensures ItemsFrom(decode, lines, i, indent) == Ok((raws, i + |raws|))
    decreases raws
  {
    hide Scalar;
    if raws != [] {
      var rest := RenderItems(raws[1..], indent);
      assert lines[i] == RenderItems(raws, indent)[0];
      assert lines[i].content[2..] == raws[0];
      assert lines[i + 1..i + 1 + |rest|] == lines[i..i + |raws|][1..] == rest;
      assert rest != [] ==> lines[i + 1] == lines[i + 1..i + 1 + |rest|][0] == rest[0];
      RenderedItemsParse(decode, lines, i + 1, raws[1..], indent);
      assert [raws[0]] + raws[1..] == raws;
    }
  }

  /** The head line of a well-formed entry shows its key and what follows the colon. */
  lemma HeadOf(e: Entry, indent: nat)
    requires IsKey(e.key)
    ensures var content := RenderEntry(e, indent)[0].content;
            && ':' in content && Key(content) == e.key && !IsItem(content) && content[0] != '-'
            && After(content) == match e case Inline(_, raw) => raw case Section(_, pad, _) => pad case Bare(_, pad) => pad
  {
    var content := RenderEntry(e, indent)[0].content;
    var k := Colon(content);
    assert content[|e.key|] == ':';
    assert forall n | 0 <= n < |e.key| :: content[n] == e.key[n];
    assert k == |e.key|;
    assert content[..k] == e.key;
  }

  lemma FirstHead(decode: Decoder, entries: seq<Entry>, indent: nat, seen: set<string>)
    requires entries != [] && EntriesWellFormed(decode, entries, seen)
    ensures !IsItem(RenderEntry(entries[0], indent)[0].content)
  {
    assert EntryWellFormed(decode, entries[0], seen);
    HeadOf(entries[0], indent);
  }

  /** The first entry's lines stand first, and what follows them starts no deeper. */
  lemma EntriesSplit(lines: seq<Line>, i: nat, entries: seq<Entry>, indent: nat)
    requires entries != [] && Placed(lines, i, RenderEntries(entries, indent), indent)
    ensures var head, rest := RenderEntry(entries[0], indent), RenderEntries(entries[1..], indent);
            var j := i + |head|;
            && j <= |lines| && lines[i..j] == head && Placed(lines, j, rest, indent)
            && |RenderEntries(entries, indent)| == |head| + |rest|
            && (j == |lines| || lines[j].indent <= indent)
  {
    hide RenderEntry;
    var head, rest := RenderEntry(entries[0], indent), RenderEntries(entries[1..], indent);
    var all := RenderEntries(entries, indent);
    var j := i + |head|;
    assert lines[i..j] == lines[i..i + |all|][..|head|] == head;
    assert lines[j..j + |rest|] == lines[i..i + |all|][|head|..] == rest;
    if entries[1..] != [] {
      assert lines[j] == lines[j..j + |rest|][0] == rest[0];
      assert rest[0] == RenderEntry(entries[1], indent)[0];
    }
  }

  lemma {:induction false} RenderedEntriesParse(
    decode: Decoder, lines: seq<Line>, i: nat, entries: seq<Entry>, indent: nat, seen: set<string>)
    requires EntriesWellFormed(decode, entries, seen) && Placed(lines, i, RenderEntries(entries, indent), indent)
    ensures EntriesFrom(decode, lines, i, indent, seen) == Ok((entries, i + |RenderEntries(entries, indent)|))
    decreases entries, 0
  {
    hide EntryAt, EntryWellFormed, RenderEntry;
    if entries != [] {
      hide Placed, RenderEntries;
      EntriesSplit(lines, i, entries, indent);
      RenderedEntryParses(decode, lines, i, entries[0], indent, seen);
      RenderedEntriesParse(decode, lines, i + |RenderEntry(entries[0], indent)|, entries[1..], indent, seen + {entries[0].key});
      assert [entries[0]] + entries[1..] == entries;
    }
  }

  lemma {:induction false} RenderedEntryParses(
    decode: Decoder, lines: seq<Line>, i: nat, e: Entry, indent: nat, seen: set<string>)
    requires EntryWellFormed(decode, e, seen)
    requires var j := i + |RenderEntry(e, indent)|;
             j <= |lines| && lines[i..j] == RenderEntry(e, indent) && (j == |lines| || lines[j].indent <= indent)
    ensures Level(lines, i, indent)
    ensures EntryAt(decode, lines, i, indent, seen) == Ok((e, i + |RenderEntry(e, indent)|))
    decreases e, 0
  {
    hide Scalar, IsKey, Blank, Colon, KeyRefusal, Key, After;
    var rendering := RenderEntry(e, indent);
    assert lines[i] == lines[i..i + |rendering|][0] == rendering[0];
    HeadOf(e, indent);
    HeadIsAccepted(e, indent, seen);
    if e.Section? {
      var body := Render(e.body, indent + 2);
      assert lines[i + 1..i + 1 + |body|] == lines[i..i + |rendering|][1..] == body;
      RenderedBlockParses(decode, lines, i + 1, e.body, indent + 2);
    }
  }

  lemma HeadIsAccepted(e: Entry, indent: nat, seen: set<string>)
    requires IsKey(e.key) && e.key !in seen
    ensures KeyRefusal(RenderEntry(e, indent)[0].content, seen).None?
  {
    hide IsKey, Colon, Key;
    HeadOf(e, indent);
  }

  /** Parsing accepts exactly the renderings of well-formed mappings, and returns the one tree rendered. */
  lemma ParsingInvertsRendering(decode: Decoder, lines: seq<Line>, t: Tree)
    ensures Parse(decode, lines) == Ok(t) <==>
              lines != [] && t.Mapping? && WellFormed(decode, t) && lines == Render(t, lines[0].indent)
  {
    if Parse(decode, lines) == Ok(t) {
      BlockIsRendered(decode, lines, 0, lines[0].indent);
      assert lines[0..|lines|] == lines;
    }
    if lines != [] && t.Mapping? && WellFormed(decode, t) && lines == Render(t, lines[0].indent) {
      assert lines[0..0 + |lines|] == lines;
      RenderedBlockParses(decode, lines, 0, t, lines[0].indent);
    }
  }
}
