/**
 Scalars of the manifest's YAML subset: plain text, single-quoted text, JSON-quoted text
 (its decoder is supplied) and bracketed lists.
*/
module ManifestScalars {
  import opened Results

  datatype Error =
    | EmptyScalar | InvalidScalar | UnsupportedFeature | ScalarsMustBeStrings
    | InvalidIndentationLine(number: nat) | ComplexityLimit | EmptyManifest
    | NestedSequence | InvalidSequence | InvalidEntry | InvalidKey | InvalidIndentation | InvalidStructure

  datatype Value = Text(text: string) | List(values: seq<Value>) | Dict(fields: map<string, Value>)

  type Decoder = string -> Option<string>

  /** The characters that stripping removes. */
  predicate IsSpace(c: char) {
    || '\U{9}' <= c <= '\U{D}' || '\U{1C}' <= c <= ' ' || c == '\U{85}' || c == '\U{A0}' || c == '\U{1680}'
    || '\U{2000}' <= c <= '\U{200A}' || c == '\U{2028}' || c == '\U{2029}' || c == '\U{202F}' || c == '\U{205F}'
    || c == '\U{3000}'
  }

  predicate Blank(s: string) {
    forall i | 0 <= i < |s| :: IsSpace(s[i])
  }

  function StripLeft(s: string): (r: string)
    ensures |r| <= |s| && (r == "" <==> Blank(s))
    ensures r != "" ==> r[|r| - 1] == s[|s| - 1]
    ensures s != "" && !IsSpace(s[0]) ==> r == s
  {
    if s != "" && IsSpace(s[0]) then
      assert Blank(s) <==> Blank(s[1..]) by {
        assert forall i | 0 < i < |s| :: s[i] == s[1..][i - 1];
        if Blank(s) {
          assert forall i | 0 <= i < |s| - 1 :: IsSpace(s[i + 1]) && s[1..][i] == s[i + 1];
        }
      }
      StripLeft(s[1..])
    else s
  }

  function StripRight(s: string): (r: string)
    ensures |r| <= |s| && (s != "" && !IsSpace(s[0]) ==> r != "")
    ensures s != "" && !IsSpace(s[|s| - 1]) ==> r == s
  {
    if s != "" && IsSpace(s[|s| - 1]) then StripRight(s[..|s| - 1]) else s
  }

  function Strip(s: string): (r: string)
    ensures |r| <= |s|
    ensures s != "" && !IsSpace(s[0]) && !IsSpace(s[|s| - 1]) ==> r == s
  {
    StripRight(StripLeft(s))
  }

  /** The pieces between commas. */
  function Split(s: string): (r: seq<string>)
    ensures r != [] && forall piece | piece in r :: |piece| <= |s|
  {
    if s == "" then [""]
    else
      var rest := Split(s[1..]);
      if s[0] == ',' then [""] + rest else [[s[0]] + rest[0]] + rest[1..]
  }

  predicate Mentions(s: string, cs: string) {
    exists c | c in s :: c in cs
  }

  /** Doubles every single quote. */
  function Doubled(s: string): string {
    if s == "" then "" else (if s[0] == '\'' then "''" else [s[0]]) + Doubled(s[1..])
  }

  /** Replaces every pair of single quotes, from the left, by one. */
  function Undoubled(s: string): string {
    if |s| < 2 then s
    else if s[0] == '\'' && s[1] == '\'' then ['\''] + Undoubled(s[2..])
    else [s[0]] + Undoubled(s[1..])
  }

  function Quoted(s: string): string {
    "'" + Doubled(s) + "'"
  }

  function Scalar(decode: Decoder, raw: string): Result<Value, Error>
    decreases |raw|, 0
  {
    var text := Strip(raw);
    if text == "" then Err(EmptyScalar)
    else if text[0] == '[' && text[|text| - 1] == ']' then
      var inner := Strip(text[1..|text| - 1]);
      if inner == "" then Ok(List([])) else
        var values := Scalars(decode, Split(inner), |raw|);
        if values.Ok? then Ok(List(values.value)) else Err(values.error)
    else if text[0] == '\"' then
      var decoded := decode(text);
      if decoded.Some? then Ok(Text(decoded.value)) else Err(InvalidScalar)
    else if text[0] == '\'' && text[|text| - 1] == '\'' && |text| >= 2 then Ok(Text(Undoubled(text[1..|text| - 1])))
    else if Mentions(text, "&*!|>{}") then Err(UnsupportedFeature)
    else if text == "true" || text == "false" || text == "null" || text == "~" then Err(ScalarsMustBeStrings)
    else Ok(Text(text))
  }

  /** Each piece in order; the first refusal wins. */
  function Scalars(decode: Decoder, pieces: seq<string>, bound: nat): Result<seq<Value>, Error>
    requires forall piece | piece in pieces :: |piece| < bound
    decreases bound, 0, pieces
  {
    if pieces == [] then Ok([])
    else
      var first := Scalar(decode, pieces[0]);
      if first.Err? then Err(first.error)
      else
        var rest := Scalars(decode, pieces[1..], bound);
        if rest.Ok? then Ok([first.value] + rest.value) else rest
  }

  lemma {:induction false} DoublingUndone(s: string)
    ensures Undoubled(Doubled(s)) == s
  {
    if s != "" {
      var rest := Doubled(s[1..]);
      DoublingUndone(s[1..]);
      assert s == [s[0]] + s[1..];
      if s[0] == '\'' {
        assert ("''" + rest)[2..] == rest;
      } else {
        assert ([s[0]] + rest)[1..] == rest;
        if |rest| == 0 {
          assert Doubled(s) == [s[0]] && Undoubled(rest) == "";
        }
      }
    }
  }

  lemma QuotedIsStripped(s: string)
    ensures Strip(Quoted(s)) == Quoted(s)
  {
    hide Doubled, StripLeft, StripRight;
  }

  /** Any text at all can be written as a scalar and read back. */
  lemma QuotedReadsBack(decode: Decoder, s: string)
    ensures Scalar(decode, Quoted(s)) == Ok(Text(s))
  {
    hide Strip, Doubled, Undoubled, Mentions, Split;
    var q := Quoted(s);
    QuotedIsStripped(s);
    assert q[1..|q| - 1] == Doubled(s);
    DoublingUndone(s);
  }

  /** A blank scalar is refused, so a value is present exactly when it is not blank. */
  lemma BlankIsRefused(decode: Decoder, raw: string)
    ensures Blank(raw) ==> Scalar(decode, raw) == Err(EmptyScalar)
    ensures !Blank(raw) ==> Strip(raw) != ""
  {
    if !Blank(raw) {
      StripLeftStartsBare(raw);
    }
  }

  lemma {:induction false} StripLeftStartsBare(s: string)
    requires !Blank(s)
    ensures StripLeft(s) != "" && !IsSpace(StripLeft(s)[0])
  {
    if IsSpace(s[0]) {
      StripLeftStartsBare(s[1..]);
    }
  }

  // Plain text and lists of it

  /** No space at either end. */
  predicate Trimmed(s: string) {
    s != "" && !IsSpace(s[0]) && !IsSpace(s[|s| - 1])
  }

  lemma {:induction false} StripLeftSkips(left: string, s: string)
    requires Blank(left) && (s != "" ==> !IsSpace(s[0]))
    ensures StripLeft(left + s) == s
  {
    if left != "" {
      assert (left + s)[1..] == left[1..] + s;
      StripLeftSkips(left[1..], s);
    } else {
      assert left + s == s;
    }
  }

  lemma {:induction false} StripRightSkips(s: string, right: string)
    requires Blank(right) && (s != "" ==> !IsSpace(s[|s| - 1]))
    ensures StripRight(s + right) == s
  {
    if right != "" {
      var n := |right| - 1;
      assert (s + right)[..|s + right| - 1] == s + right[..n];
      StripRightSkips(s, right[..n]);
    } else {
      assert s + right == s;
    }
  }

  /** Stripping takes away exactly the blanks around trimmed text. */
  lemma BlanksAreStripped(left: string, s: string, right: string)
    requires Blank(left) && Blank(right) && Trimmed(s)
    ensures Strip(left + s + right) == s
  {
    assert left + s + right == left + (s + right) && (s + right)[0] == s[0];
    StripLeftSkips(left, s + right);
    StripRightSkips(s, right);
  }

  /** Trimmed text that is neither quoted nor a list. */
  predicate Unquoted(s: string) {
    && Trimmed(s) && s[0] != '\"' && !(s[0] == '[' && s[|s| - 1] == ']')
    && !(s[0] == '\'' && s[|s| - 1] == '\'' && |s| >= 2)
  }

  /**
   Unquoted text, whatever blanks surround it, reads as itself exactly when it uses no other YAML
   feature and is none of the words YAML reads as something else.
  */
  lemma UnquotedReadsAsItself(decode: Decoder, left: string, s: string, right: string)
    requires Blank(left) && Blank(right) && Unquoted(s)
    ensures var r := Scalar(decode, left + s + right);
            var special := exists c | c in s :: c in {'&', '*', '!', '|', '>', '{', '}'};
            && (r.Ok? <==> !special && s !in {"true", "false", "null", "~"})
            && (r.Ok? ==> r.value == Text(s))
            && (special ==> r == Err(UnsupportedFeature))
            && (!special && r.Err? ==> r == Err(ScalarsMustBeStrings))
  {
    hide Strip, IsSpace, Split;
    BlanksAreStripped(left, s, right);
    forall c ensures c in "&*!|>{}" <==> c in {'&', '*', '!', '|', '>', '{', '}'} {
    }
  }

  /** Decoded text, an undecodable one, and the empty list. */
  lemma QuotedTextIsDecoded(decode: Decoder, left: string, s: string, right: string)
    requires Blank(left) && Blank(right) && Trimmed(s)
    ensures s[0] == '\"' ==>
              Scalar(decode, left + s + right) == match decode(s) case Some(t) => Ok(Text(t)) case None => Err(InvalidScalar)
    ensures s[0] == '[' && s[|s| - 1] == ']' && |s| >= 2 && Blank(s[1..|s| - 1]) ==>
              Scalar(decode, left + s + right) == Ok(List([]))
  {
    hide IsSpace, Split, Mentions, Undoubled;
    BlanksAreStripped(left, s, right);
    if |s| >= 2 && Blank(s[1..|s| - 1]) {
      assert StripRight("") == "";
    }
  }

  /** The pieces with a comma between them. */
  function Listed(pieces: seq<string>): string
    requires pieces != []
  {
    if |pieces| == 1 then pieces[0] else pieces[0] + "," + Listed(pieces[1..])
  }

  lemma SplitOne(c: char, rest: string)
    ensures Split([c] + rest) == if c == ',' then [""] + Split(rest) else [[c] + Split(rest)[0]] + Split(rest)[1..]
  {
    assert ([c] + rest)[1..] == rest;
  }

  lemma {:induction false} SplitWhole(piece: string)
    requires ',' !in piece
    ensures Split(piece) == [piece]
  {
    if piece != "" {
      SplitWhole(piece[1..]);
      assert piece == [piece[0]] + piece[1..];
    }
  }

  lemma {:induction false} SplitSkips(piece: string, rest: string)
    requires ',' !in piece
    ensures Split(piece + "," + rest) == [piece] + Split(rest)
  {
    hide Split;
    if piece == "" {
      assert piece + "," + rest == [','] + rest;
      SplitOne(',', rest);
    } else {
      var tail := piece[1..] + "," + rest;
      SplitSkips(piece[1..], rest);
      assert piece + "," + rest == [piece[0]] + tail && piece == [piece[0]] + piece[1..];
      SplitOne(piece[0], tail);
    }
  }

  lemma {:induction false} JoinedSplits(pieces: seq<string>)
    requires pieces != [] && forall piece | piece in pieces :: ',' !in piece
    ensures Split(Listed(pieces)) == pieces
  {
    if |pieces| == 1 {
      SplitWhole(pieces[0]);
      assert pieces == [pieces[0]];
    } else {
      JoinedSplits(pieces[1..]);
      SplitSkips(pieces[0], Listed(pieces[1..]));
      assert pieces == [pieces[0]] + pieces[1..];
    }
  }

  function TextsOf(texts: seq<string>): seq<Value> {
    seq(|texts|, i requires 0 <= i < |texts| => Text(texts[i]))
  }

  /** The pieces are plain texts behind blanks. */
  ghost predicate PlainPieces(decode: Decoder, pieces: seq<string>, texts: seq<string>) {
    && |pieces| == |texts|
    && forall i | 0 <= i < |texts| :: ',' !in pieces[i] && Scalar(decode, pieces[i]) == Ok(Text(texts[i]))
  }

  lemma {:induction false} PiecesReadInOrder(decode: Decoder, pieces: seq<string>, texts: seq<string>, bound: nat)
    requires PlainPieces(decode, pieces, texts) && forall piece | piece in pieces :: |piece| < bound
    ensures Scalars(decode, pieces, bound) == Ok(TextsOf(texts))
    decreases |pieces|
  {
    hide Scalar;
    if pieces != [] {
      assert pieces[0] in pieces && forall piece | piece in pieces[1..] :: piece in pieces;
      PiecesReadInOrder(decode, pieces[1..], texts[1..], bound);
      assert TextsOf(texts) == [Text(texts[0])] + TextsOf(texts[1..]);
    }
  }

  /** A bracketed list of pieces that read as texts reads as the list of those texts, in order. */
  lemma BracketedListReadsItsPieces(decode: Decoder, pieces: seq<string>, texts: seq<string>)
    requires pieces != [] && PlainPieces(decode, pieces, texts) && Trimmed(Listed(pieces))
    ensures Scalar(decode, "[" + Listed(pieces) + "]") == Ok(List(TextsOf(texts)))
  {
    hide Strip, Split, Undoubled, Mentions, Scalars;
    var inner := Listed(pieces);
    var raw := "[" + inner + "]";
    assert Trimmed(raw);
    BlanksAreStripped("", raw, "");
    assert "" + raw + "" == raw && raw[1..|raw| - 1] == inner;
    BlanksAreStripped("", inner, "");
    assert "" + inner + "" == inner;
    JoinedSplits(pieces);
    PiecesReadInOrder(decode, pieces, texts, |raw|);
  }
}
