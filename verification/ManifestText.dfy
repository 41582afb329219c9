/** The lines of a source text. Any of the line breaks ends a line; a return and a newline together are one break. */
module ManifestText {

  /** The characters that end a line. */
  predicate IsBreak(c: char) {
    || '\n' <= c <= '\r' || '\U{1C}' <= c <= '\U{1E}'
    || c == '\U{85}' || c == '\U{2028}' || c == '\U{2029}'
  }

  predicate OneLine(s: string) {
    forall c | c in s :: !IsBreak(c)
  }

  /** The length of the first line. */
  function FirstLine(text: string): (n: nat)
    ensures n <= |text| && OneLine(text[..n])
    ensures n < |text| ==> IsBreak(text[n])
  {
    if text == [] || IsBreak(text[0]) then 0
    else
      var n := FirstLine(text[1..]);
      assert text[..n + 1] == [text[0]] + text[1..][..n];
      n + 1
  }

  /** Where the text goes on after the break at a position. */
  function PastBreak(text: string, n: nat): (k: nat)
    requires n <= |text|
    ensures k <= |text| && (n < |text| ==> n < k)
  {
    if n + 1 < |text| && text[n] == '\r' && text[n + 1] == '\n' then n + 2
    else if n < |text| then n + 1
    else n
  }

  /** A break at the very end begins no further line. */
  function SplitLines(text: string): (lines: seq<string>)
    ensures forall line | line in lines :: OneLine(line)
    decreases |text|
  {
    if text == [] then []
    else [text[..FirstLine(text)]] + SplitLines(text[PastBreak(text, FirstLine(text))..])
  }

  /** The text with these lines, each ended by a newline. */
  function Ended(lines: seq<string>): string {
    if lines == [] then "" else lines[0] + "\n" + Ended(lines[1..])
  }

  lemma {:induction false} FirstLineOf(line: string, rest: string)
    requires OneLine(line)
    ensures FirstLine(line + "\n" + rest) == |line|
  {
    var text := line + "\n" + rest;
    if line != [] {
      assert line[0] in line;
      FirstLineOf(line[1..], rest);
      assert text[1..] == line[1..] + "\n" + rest;
    } else {
      assert text[0] == '\n';
    }
  }

  /** Lines written to a text are read back, if none has a break inside. */
  lemma {:induction false} EndedSplitsBack(lines: seq<string>)
    requires forall line | line in lines :: OneLine(line)
    ensures SplitLines(Ended(lines)) == lines
  {
    if lines != [] {
      var line, rest := lines[0], Ended(lines[1..]);
      var text := line + "\n" + rest;
      FirstLineOf(line, rest);
      assert text[|line|] == '\n';
      assert PastBreak(text, |line|) == |line| + 1;
      assert text[..|line|] == line && text[|line| + 1..] == rest;
      EndedSplitsBack(lines[1..]);
    }
  }

  /** And only then: what is read back has no break inside a line. */
  lemma SplitBackExactlyWhenOneLine(lines: seq<string>)
    ensures SplitLines(Ended(lines)) == lines <==> forall line | line in lines :: OneLine(line)
  {
    if forall line | line in lines :: OneLine(line) {
      EndedSplitsBack(lines);
    }
  }
}
