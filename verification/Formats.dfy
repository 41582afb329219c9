/** The formats of identifiers, keys and digests, spelled out over their alphabets. */
module Formats {
  import opened Identifiers
  import TaskGraph
  import CoordinatorServer
  import ManifestScalars
  import ManifestText

  const LOWER := "abcdefghijklmnopqrstuvwxyz"
  const CAPITALS := "ABCDEFGHIJKLMNOPQRSTUVWXYZ"
  const DIGITS := "0123456789"

  lemma LowerLetters(c: char)
    ensures c in LOWER <==> 'a' <= c <= 'z'
  {
    if 'a' <= c <= 'z' {
      assert LOWER[c as int - 'a' as int] == c;
    }
  }

  lemma CapitalLetters(c: char)
    ensures c in CAPITALS <==> 'A' <= c <= 'Z'
  {
    if 'A' <= c <= 'Z' {
      assert CAPITALS[c as int - 'A' as int] == c;
    }
  }

  lemma Digit(c: char)
    ensures c in DIGITS <==> '0' <= c <= '9'
    ensures c in DIGITS + "abcdef" <==> '0' <= c <= '9' || 'a' <= c <= 'f'
  {
    if '0' <= c <= '9' {
      assert DIGITS[c as int - '0' as int] == c;
    }
    if 'a' <= c <= 'f' {
      assert "abcdef"[c as int - 'a' as int] == c;
    }
  }

  /** Every character of the text is in the alphabet. */
  ghost predicate Spelled(s: string, alphabet: string) {
    forall c | c in s :: c in alphabet
  }

  lemma SpelledInHex(s: string)
    ensures Spelled(s, DIGITS + "abcdef") <==> forall i | 0 <= i < |s| :: '0' <= s[i] <= '9' || 'a' <= s[i] <= 'f'
  {
    forall i | 0 <= i < |s| ensures s[i] in DIGITS + "abcdef" <==> '0' <= s[i] <= '9' || 'a' <= s[i] <= 'f' {
      Digit(s[i]);
    }
  }

  lemma SpelledInCapitals(s: string)
    ensures Spelled(s, CAPITALS + DIGITS + "-") <==> forall i | 0 <= i < |s| :: IdChar(s[i])
  {
    forall i | 0 <= i < |s| ensures s[i] in CAPITALS + DIGITS + "-" <==> IdChar(s[i]) {
      CapitalLetters(s[i]);
      Digit(s[i]);
    }
  }

  lemma SpelledInDigits(s: string)
    ensures Spelled(s, DIGITS) <==> forall i | 0 <= i < |s| :: '0' <= s[i] <= '9'
  {
    forall i | 0 <= i < |s| ensures s[i] in DIGITS <==> '0' <= s[i] <= '9' {
      Digit(s[i]);
    }
  }

  /** Lower-case letters, digits and these other characters. */
  lemma SpelledInLower(s: string, others: string)
    ensures Spelled(s, LOWER + DIGITS + others) <==>
              forall i | 0 <= i < |s| :: 'a' <= s[i] <= 'z' || '0' <= s[i] <= '9' || s[i] in others
  {
    forall i | 0 <= i < |s|
      ensures s[i] in LOWER + DIGITS + others <==> 'a' <= s[i] <= 'z' || '0' <= s[i] <= '9' || s[i] in others
    {
      LowerLetters(s[i]);
      Digit(s[i]);
    }
  }

  /** The text is the prefix and at least so many, at most so many characters of the alphabet. */
  ghost predicate Prefixed(s: string, prefix: string, least: nat, most: nat, alphabet: string) {
    prefix <= s && least <= |s| - |prefix| <= most && Spelled(s[|prefix|..], alphabet)
  }

  lemma DigestFormat(s: string)
    ensures IsDigest(s) <==> Prefixed(s, "sha256:", 64, 64, "0123456789abcdef")
  {
    assert DIGITS + "abcdef" == "0123456789abcdef";
    if |s| == 71 {
      SpelledInHex(s[7..]);
      assert forall i | 7 <= i < 71 :: s[i] == s[7..][i - 7];
      assert forall i | 0 <= i < 64 :: s[7..][i] == s[i + 7];
    }
  }

  lemma IdFormat(prefix: string, s: string)
    ensures IsId(prefix, s) <==> Prefixed(s, prefix, 1, 63, CAPITALS + DIGITS + "-")
  {
    if prefix <= s {
      SpelledInCapitals(s[|prefix|..]);
      assert forall i | |prefix| <= i < |s| :: s[i] == s[|prefix|..][i - |prefix|];
      assert forall i | 0 <= i < |s| - |prefix| :: s[|prefix|..][i] == s[i + |prefix|];
    }
  }

  lemma DecisionIdFormat(s: string)
    ensures TaskGraph.IsDecisionId(s) <==> Prefixed(s, "DEC-", 1, 48, CAPITALS + DIGITS + "-")
  {
    if "DEC-" <= s {
      SpelledInCapitals(s[4..]);
      assert forall i | 4 <= i < |s| :: s[i] == s[4..][i - 4];
      assert forall i | 0 <= i < |s| - 4 :: s[4..][i] == s[i + 4];
    }
  }

  lemma TaskIdFormat(s: string)
    ensures IsTaskId(s) <==> Prefixed(s, "AR-", 4, 4, DIGITS)
  {
    if "AR-" <= s {
      SpelledInDigits(s[3..]);
      assert forall i | 3 <= i < |s| :: s[i] == s[3..][i - 3];
      assert forall i | 0 <= i < |s| - 3 :: s[3..][i] == s[i + 3];
    }
  }

  lemma NameFormat(s: string)
    ensures IsName(s) <==> 2 <= |s| <= 32 && s[0] in LOWER && Spelled(s, LOWER + DIGITS + "_-")
  {
    SpelledInLower(s, "_-");
    if s != "" {
      LowerLetters(s[0]);
    }
  }

  lemma EventKindFormat(s: string)
    ensures CoordinatorServer.IsEventKind(s) <==> 1 <= |s| <= 32 && s[0] in LOWER && Spelled(s, LOWER + DIGITS + "_")
  {
    SpelledInLower(s, "_");
    if s != "" {
      LowerLetters(s[0]);
    }
  }

  lemma WorktreeKeyFormat(s: string)
    ensures CoordinatorServer.IsWorktreeKey(s) <==>
              1 <= |s| <= 128 && s[0] in LOWER + DIGITS && Spelled(s, LOWER + DIGITS + "-")
  {
    SpelledInLower(s, "-");
    if s != "" {
      LowerLetters(s[0]);
      Digit(s[0]);
    }
  }

  lemma GraphKeyFormat(s: string)
    ensures TaskGraph.IsKey(s) <==> 1 <= |s| <= 64 && s[0] in LOWER + DIGITS && Spelled(s, LOWER + DIGITS + "._-")
  {
    SpelledInLower(s, "._-");
    if s != "" {
      LowerLetters(s[0]);
      Digit(s[0]);
    }
  }

  /** The twenty-nine characters that stripping removes. */
  lemma SpaceFormat(c: char)
    ensures ManifestScalars.IsSpace(c) <==>
              || c in "\U{9}\U{A}\U{B}\U{C}\U{D}\U{1C}\U{1D}\U{1E}\U{1F}"
              || c in "\U{20}\U{85}\U{A0}\U{1680}\U{2000}\U{2001}\U{2002}\U{2003}\U{2004}"
              || c in "\U{2005}\U{2006}\U{2007}\U{2008}\U{2009}\U{200A}\U{2028}\U{2029}\U{202F}"
              || c in "\U{205F}\U{3000}"
  {
    if '\U{2000}' <= c <= '\U{200A}' {
      assert c as int - 0x2000 in {0, 1, 2, 3, 4, 5, 6, 7, 8, 9, 10};
    }
  }

  /** The ten characters that end a line. */
  lemma BreakFormat(c: char)
    ensures ManifestText.IsBreak(c) <==> c in "\U{A}\U{B}\U{C}\U{D}\U{1C}\U{1D}\U{1E}\U{85}\U{2028}\U{2029}"
  {
  }
}
