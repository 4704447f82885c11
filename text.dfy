/**
 * Whitespace trimming as JavaScript's `String.prototype.trim` does it, and the
 * "blank" test the forms apply to each field: `s.trim()` used as a condition is
 * truthy exactly when the trimmed string is non-empty.
 */
module Text {

  /** The characters `trim` strips: ECMAScript's WhiteSpace and LineTerminator
      code points (the space separators are those of the Unicode Zs category). */
  predicate IsWhitespace(c: char) {
    var n := c as int;
    || n == 0x09 || n == 0x0A || n == 0x0B || n == 0x0C || n == 0x0D
    || n == 0x20 || n == 0xA0 || n == 0x1680
    || (0x2000 <= n <= 0x200A)
    || n == 0x2028 || n == 0x2029 || n == 0x202F || n == 0x205F
    || n == 0x3000 || n == 0xFEFF
  }

  /** A string is blank when every character of it is whitespace (the empty string included). */
  predicate IsBlank(s: string) {
    forall k | 0 <= k < |s| :: IsWhitespace(s[k])
  }

  /** `s` with its leading whitespace removed: the longest suffix of `s` that
      does not start with whitespace. */
  function TrimStart(s: string): (r: string)
    ensures |r| <= |s| && r == s[|s| - |r|..]
    ensures forall k | 0 <= k < |s| - |r| :: IsWhitespace(s[k])
    ensures r != [] ==> !IsWhitespace(r[0])
  {
    if s != [] && IsWhitespace(s[0]) then TrimStart(s[1..]) else s
  }

  /** `s` with its trailing whitespace removed: the longest prefix of `s` that
      does not end with whitespace. */
  function TrimEnd(s: string): (r: string)
    ensures |r| <= |s| && r == s[..|r|]
    ensures forall k | |r| <= k < |s| :: IsWhitespace(s[k])
    ensures r != [] ==> !IsWhitespace(r[|r| - 1])
  {
    if s != [] && IsWhitespace(s[|s| - 1]) then TrimEnd(s[..|s| - 1]) else s
  }

  /** `String.prototype.trim`: what is left of `s` once the whitespace at both
      ends is gone. It is empty exactly when `s` is blank, and otherwise
      neither starts nor ends with whitespace. */
  function Trim(s: string): (r: string)
    ensures r == [] <==> IsBlank(s)
    ensures r != [] ==> !IsWhitespace(r[0]) && !IsWhitespace(r[|r| - 1])
  {
    var t := TrimStart(s);
    assert |t| > 0 ==> t[0] == s[|s| - |t|];
    TrimEnd(t)
  }

  /** `s.trim()` used as a condition: true when something other than
      whitespace is left after trimming, that is, when `s` is not blank. */
  method HasText(s: string) returns (b: bool)
    ensures b <==> !IsBlank(s)
  {
    b := Trim(s) != "";
  }

  /** Trim is determined by where the blank prefix and the blank suffix end:
      cutting from `s` any whitespace-only prefix and suffix so that what is
      left neither starts nor ends with whitespace yields exactly `Trim(s)`. */
  lemma TrimUnique(s: string, i: nat, j: nat)
    requires i <= j <= |s|
    requires forall k | 0 <= k < i :: IsWhitespace(s[k])
    requires forall k | j <= k < |s| :: IsWhitespace(s[k])
    requires i < j ==> !IsWhitespace(s[i]) && !IsWhitespace(s[j - 1])
    ensures Trim(s) == s[i..j]
  {
  }

  /** Trimming twice is trimming once. */
  lemma TrimIdempotent(s: string)
    ensures Trim(Trim(s)) == Trim(s)
  {
    var r := Trim(s);
    TrimUnique(r, 0, |r|);
    assert r[0..|r|] == r;
  }

  /** Whitespace-only input is blank, so it trims to the empty string. */
  lemma SpacesAreBlank()
    ensures Trim("   ") == ""
    ensures Trim(" \t\n") == ""
  {
  }

  /** Surrounding whitespace is cut and the visible part kept. */
  lemma PaddedNameTrims()
    ensures Trim("  Alice ") == "Alice"
  {
    var alice := "  Alice ";
    assert !IsWhitespace(alice[2]) && !IsWhitespace(alice[6]);
    TrimUnique(alice, 2, 7);
    assert alice[2..7] == "Alice";
  }
}
