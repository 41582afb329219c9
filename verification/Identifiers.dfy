/** The identifier and digest formats the components share. */
module Identifiers {

  /** "sha256:" and sixty-four lower-case hexadecimal digits. */
  predicate IsDigest(s: string) {
    && |s| == 71
    && s[..7] == "sha256:"
    && forall i :: 7 <= i < 71 ==> '0' <= s[i] <= '9' || 'a' <= s[i] <= 'f'
  }

  /** The digest of sixty-four zeros. */
  function ZeroDigest(): (d: string)
    ensures IsDigest(d)
  {
    "sha256:" + seq(64, _ => '0')
  }

  predicate IdChar(c: char) {
    'A' <= c <= 'Z' || '0' <= c <= '9' || c == '-'
  }

  /** The prefix and one to sixty-three capitals, digits and dashes. */
  predicate IsId(prefix: string, s: string) {
    && prefix <= s && 1 <= |s| - |prefix| <= 63
    && forall i :: |prefix| <= i < |s| ==> IdChar(s[i])
  }

  /** A task: "AR-" and four digits. */
  predicate IsTaskId(s: string) {
    "AR-" <= s && |s| == 7 && forall i :: 3 <= i < 7 ==> '0' <= s[i] <= '9'
  }

  /** A lower-case letter and one to thirty-one letters, digits, underscores or dashes. */
  predicate IsName(s: string) {
    && 2 <= |s| <= 32 && 'a' <= s[0] <= 'z'
    && forall c | c in s :: 'a' <= c <= 'z' || '0' <= c <= '9' || c == '_' || c == '-'
  }
}
