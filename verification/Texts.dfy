/** The text rules that the identifiers of traces and acceptance bundles obey. */
module Texts {

  /** The characters that Python's str.strip removes. */
  predicate IsSpace(c: char) {
    var n := c as int;
    || 0x09 <= n <= 0x0d || 0x1c <= n <= 0x20 || n == 0x85 || n == 0xa0 || n == 0x1680
    || 0x2000 <= n <= 0x200a || n == 0x2028 || n == 0x2029 || n == 0x202f || n == 0x205f || n == 0x3000
  }

  /** Non-empty and without white space at either end. */
  predicate IsTrimmed(s: string) {
    s != "" && !IsSpace(s[0]) && !IsSpace(s[|s| - 1])
  }

  /** A trimmed text of at most 2048 characters. */
  predicate IsText(s: string) {
    IsTrimmed(s) && |s| <= 2048
  }

  predicate IsHexText(s: string) {
    forall i :: 0 <= i < |s| ==> '0' <= s[i] <= '9' || 'a' <= s[i] <= 'f'
  }

  /** A lowercase SHA-256 digest. */
  predicate IsDigest(s: string) {
    |s| == 64 && IsHexText(s)
  }

  /** A lowercase SHA-256 digest, with or without its algorithm in front. */
  predicate IsTaggedDigest(s: string) {
    IsDigest(s) || (|s| == 71 && s[..7] == "sha256:" && IsDigest(s[7..]))
  }

  predicate IsCommit(s: string) {
    |s| == 40 && IsHexText(s)
  }

  /** The text rule that stands before each digest pattern decides nothing: what matches a pattern is a text. */
  lemma DigestsAreTexts(s: string)
    ensures IsTaggedDigest(s) || IsCommit(s) ==> IsText(s)
  {
    if |s| == 71 && s[..7] == "sha256:" && IsDigest(s[7..]) {
      assert s[0] == s[..7][0] && s[70] == s[7..][63];
    }
  }
}
