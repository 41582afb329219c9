/**
 Why a manifest is refused: the first line the scan stops at and its number, and what stops the
 reading of one line of a block.
*/
module ManifestRefusals {
  import opened Results
  import opened ManifestScalars
  import opened ManifestBlocks
  import opened ManifestParser

  /** A line with a tab, or indented by an odd number of spaces. */
  predicate BadlyIndented(line: string) {
    '\t' in line || Indent(line) % 2 != 0
  }

  /** How many of the lines up to n count. */
  function Counted(source: seq<string>, n: nat): nat
    requires n <= |source|
  {
    if n == 0 then 0 else Counted(source, n - 1) + if Skipped(source[n - 1]) then 0 else 1
  }

  /** The scan stops at this line, after this many that count. */
  ghost predicate StopsAt(source: seq<string>, n: nat, before: nat)
    requires n < |source|
  {
    !Skipped(source[n]) && (BadlyIndented(source[n]) || |source[n]| - Indent(source[n]) > 1024 || before >= 400)
  }

  lemma {:induction false} ScanStops(source: seq<string>, n: nat, count: nat, k: nat)
    requires n <= k < |source| && Counted(source, n) == count
    requires StopsAt(source, k, Counted(source, k))
    requires forall j | n <= j < k :: !StopsAt(source, j, Counted(source, j))
    ensures Scan(source, n, count)
         == Err(if BadlyIndented(source[k]) then InvalidIndentationLine(k + 1) else ComplexityLimit)
    decreases k - n
  {
    hide Skipped, Indent;
    if n < k {
      assert !StopsAt(source, n, Counted(source, n));
      assert Counted(source, n + 1) == count + if Skipped(source[n]) then 0 else 1;
      ScanStops(source, n + 1, Counted(source, n + 1), k);
    }
  }

  /** A source with a line the scan stops at is refused for the first such line, by its number if it is badly indented. */
  lemma FirstBadLineIsNamed(decode: Decoder, source: seq<string>, k: nat)
    requires k < |source| && StopsAt(source, k, Counted(source, k))
    requires forall j | 0 <= j < k :: !StopsAt(source, j, Counted(source, j))
    ensures ParseManifest(decode, source)
         == Err(if BadlyIndented(source[k]) then InvalidIndentationLine(k + 1) else ComplexityLimit)
  {
    hide Scan, StopsAt, BadlyIndented, Parse;
    ScanStops(source, 0, 0, k);
  }

  /** A source without a line that counts is empty. */
  lemma {:induction false} NothingCounts(source: seq<string>, n: nat, count: nat)
    requires n <= |source| && forall j | n <= j < |source| :: Skipped(source[j])
    ensures Scan(source, n, count) == Ok([])
    decreases |source| - n
  {
    hide Skipped;
    if n < |source| {
      NothingCounts(source, n + 1, count);
    }
  }

  lemma EmptyManifestIsNamed(decode: Decoder, source: seq<string>)
    requires forall line | line in source :: Blank(line) || StripLeft(line)[0] == '#'
    ensures ParseManifest(decode, source) == Err(EmptyManifest)
  {
    NothingCounts(source, 0, 0);
  }

  /** The key before the first colon at k: a lower-case letter, then lower-case letters, digits and underscores. */
  ghost predicate KeyedAt(content: string, k: nat) {
    && 1 <= k < |content| && content[k] == ':' && 'a' <= content[0] <= 'z'
    && forall i | 0 <= i < k :: 'a' <= content[i] <= 'z' || '0' <= content[i] <= '9' || content[i] == '_'
  }

  /**
   A line of a mapping that is not taken: an item, no colon, a key that is none or known, a value that is no
   scalar, or a nested block that is not two spaces deeper.
  */
  lemma EntryRefusals(decode: Decoder, lines: seq<Line>, i: nat, indent: nat, seen: set<string>)
    requires Level(lines, i, indent)
    ensures var (r, content) := (EntryAt(decode, lines, i, indent, seen), lines[i].content);
            var item := content != "" && content[0] == '-';
            && (item ==> r == Err(InvalidSequence))
            && (!item && ':' !in content ==> r == Err(InvalidEntry))
            && (!item && ':' in content && !(exists k: nat :: KeyedAt(content, k) && content[..k] !in seen) ==>
                  r == Err(InvalidKey))
            && forall k: nat | KeyedAt(content, k) && content[..k] !in seen ::
                 var value := content[k + 1..];
                 && (!Blank(value) ==>
                       var scalar := Scalar(decode, value);
                       r == if scalar.Ok? then Ok((Inline(content[..k], value), i + 1)) else Err(scalar.error))
                 && (Blank(value) && !Deeper(lines, i + 1, indent) ==> r == Ok((Bare(content[..k], value), i + 1)))
                 && (Blank(value) && Deeper(lines, i + 1, indent) && lines[i + 1].indent != indent + 2 ==>
                       r == Err(InvalidIndentation))
  {
    hide Scalar, Blank, Block;
    var content := lines[i].content;
    forall k: nat | KeyedAt(content, k) ensures ':' in content && Colon(content) == k && IsKey(content[..k]) {
      KeyIsBeforeTheColon(content, k);
    }
    if ':' in content && IsKey(Key(content)) {
      assert KeyedAt(content, Colon(content));
    }
  }

  lemma KeyIsBeforeTheColon(content: string, k: nat)
    requires KeyedAt(content, k)
    ensures ':' in content && Colon(content) == k && IsKey(content[..k])
  {
    assert forall i | 0 <= i < k :: content[i] != ':';
  }

  /** A list of items has nothing deeper below an item, and every item is a scalar. */
  lemma ItemRefusals(decode: Decoder, lines: seq<Line>, i: nat, indent: nat)
    requires Level(lines, i, indent) && "- " <= lines[i].content
    ensures var (r, scalar) := (ItemsFrom(decode, lines, i, indent), Scalar(decode, lines[i].content[2..]));
            && (scalar.Err? ==> r == Err(scalar.error))
            && (scalar.Ok? && i + 1 < |lines| && lines[i + 1].indent > indent ==> r == Err(NestedSequence))
  {
    hide Scalar;
  }

  /** A manifest that is a list at its top, or does not end with its first block, is none. */
  lemma StructureRefusals(decode: Decoder, lines: seq<Line>)
    requires lines != []
    ensures var block := Block(decode, lines, 0, lines[0].indent);
            && (block.Err? ==> Parse(decode, lines) == Err(block.error))
            && (block.Ok? && ("- " <= lines[0].content || block.value.1 < |lines|) ==>
                  Parse(decode, lines) == Err(InvalidStructure))
  {
    hide ItemsFrom, EntriesFrom;
  }
}
